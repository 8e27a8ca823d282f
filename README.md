# A verified model of the DevAgent task lifecycle

DevAgent is a self-improving development agent. Its work is a persistent queue of
task records. Each record's `status` moves `pending → processing → completed | failed`.
Two re-queue transitions lead back to `pending`:

- crash recovery moves `processing` back to `pending`;
- an explicit revival moves `failed` back to `pending`.

A dispatcher claims one pending task at a time. It resolves a handler from a `type → handler` map
and turns every outcome into a terminal status. A cleaner removes old finished tasks. The
self-improvement subsystem keeps its own FIFO scheduler and a priority planner ordered by
`(priority, insertion time, id)`. A pull-request monitor reconciles tracked PRs against GitHub.

`DevAgent.self_improve` is the git transaction around a run:

- commit a dirty tree;
- open an improvement branch;
- enqueue one `full_cycle` task and drain the queue;
- commit what changed, optionally push and open a pull request;
- on an exception, check out the original branch again and delete the improvement branch.

Around this core sit two registries (modules and handlers) and a set of self-contained helpers:

- planning-task validation and de-duplication;
- DFS cycle detection over a dependency graph;
- severity/effort scoring;
- dotted-key configuration;
- JSON schema validation and the quote and comma repairs;
- indentation-based code-block extraction;
- the code generator's indent counter;
- the refactoring-proposal records.

Each Dafny module follows one source file:

- An object whose methods update its fields in place is a `class` with `seq`/`map` fields.
  Its methods are proved against specification functions, and the lemmas state the
  lifecycle properties.
- Pure code is a function.
- Every file write is a ghost snapshot of the list it would write (`saved`, `tasksOnDisk`, …).
- Clocks are integer parameters.
- Handlers, git, GitHub, the parser and the Gemini client are oracle parameters.
- JSON values are the `JsonValue.Value` datatype. `Get` returns `JNull` for an absent key,
  as `dict.get` returns `None`. `Truthy` is Python's truth test.

The model follows the code in these places:

- `TaskDispatcher.register_handler` overwrites an existing handler.
- `requeue_processing_tasks` keeps `start_time`.
- `ImprovementScheduler.get_next_task` is FIFO, not priority order.
- The pull-request monitor drops a settled entry in the same call that settles it.
- A scheduler file holding an empty list gives an empty queue, not the default task.

## Model

| member | source | states |
|---|---|---|
| Tasks.LoadTasks | modules/core/task_queue.py:30-45 | a stored list is loaded as is; a missing or undecodable file gives the empty queue |
| Tasks.Normalize | modules/core/task_queue.py:55-63 | `status` becomes pending and `added_time` becomes now only when absent; every other key is kept |
| Tasks.NormalizeAll | modules/core/task_queue.py:65-74 | one task per input task |
| Tasks.FirstPending | modules/core/task_queue.py:76-84 | the index of the earliest pending task; None iff no task is pending |
| Tasks.Claim | modules/core/task_queue.py:76-84 | claiming keeps the queue's length |
| Tasks.RequeueProcessing | modules/core/task_queue.py:123-138 | re-queueing keeps the queue's length |
| Tasks.RequeueFailed | modules/core/task_queue.py:140-154 | reviving keeps the queue's length |
| Tasks.StatsOf | modules/core/task_queue.py:100-109 | `total` is the queue length; `unknown` appears only when some task has another status |
| Tasks.StatsPartition | modules/core/task_queue.py:100-109 | pending, processing, completed, failed and unknown sum to `total` |
| Tasks.StatsAsWritten | modules/core/task_queue.py:100-109 | as written, `total` exceeds the queue length iff some task's status is the string "total"; the four status counts agree with `StatsOf` |
| Tasks.CountPartition | modules/core/task_queue.py:100-109 | the four status counts plus the other-status count equal the queue length |
| Tasks.StatsAsWrittenMiscounts | modules/core/task_queue.py:102-106 | as written, a one-task queue whose status is "total" reports `total` 2 and counts that task in no other counter |
| Tasks.ClaimAdvances | modules/core/task_queue.py:76-84 | the claimed task becomes processing, the next claim (if any) is a later task, the pending count drops by one and the processing count grows by one |
| Tasks.RequeueProcessingDrains | modules/core/task_queue.py:123-138 | afterwards nothing is processing, every processing task is pending, and a second call changes nothing |
| Tasks.RequeueFailedRevives | modules/core/task_queue.py:140-154 | a failed task matching every criterion under Python equality (`PyEq`) becomes pending without `error` or `completed_time`; any other task is unchanged |
| Tasks.RequeueFailedCount | modules/core/task_queue.py:140-154 | the failed count drops by exactly the number of revived tasks |
| Tasks.RequeueComparesByValue | modules/core/task_queue.py:145 | a failed task with priority `1.0` matches the criterion `{"priority": 1}` and is revived |
| Tasks.ClearCompletedKeeps | modules/core/task_queue.py:163-170 | no completed task remains, every other status keeps its count, order is preserved, and the removed count is the completed count |
| Tasks.CompletedSplit | modules/core/task_queue.py:163-170 | kept plus completed equals the original length |
| Tasks.TaskQueue.constructor | modules/core/task_queue.py:20-28 | the queue is the loaded file, which is also the saved snapshot |
| Tasks.TaskQueue.Save | modules/core/task_queue.py:47-53 | the snapshot becomes the current list |
| Tasks.TaskQueue.AddTask | modules/core/task_queue.py:55-63 | appends the normalised task at the end, leaves earlier tasks unchanged and saves |
| Tasks.TaskQueue.AddTasks | modules/core/task_queue.py:65-74 | appends every input task in order, normalised, and saves |
| Tasks.TaskQueue.GetNextTask | modules/core/task_queue.py:76-84 | returns the first pending task, stamped processing, or None when none is pending; nothing else changes |
| Tasks.TaskQueue.MarkCompleted | modules/core/task_queue.py:86-91 | sets status completed, `completed_time` and `result` on that task only, and saves |
| Tasks.TaskQueue.MarkFailed | modules/core/task_queue.py:93-98 | sets status failed, `completed_time` and `error` on that task only, and saves |
| Tasks.TaskQueue.GetStats | modules/core/task_queue.py:100-109 | the corrected counts of the current queue (see the first row under "## Findings": a task whose status is "total" is not counted twice), summing to its length; the queue is not changed |
| Tasks.TaskQueue.RequeueProcessingTasks | modules/core/task_queue.py:123-138 | every processing task becomes pending (keeping `start_time`); returns their number; saves only when it is positive |
| Tasks.TaskQueue.RequeueFailedTasks | modules/core/task_queue.py:140-154 | revives exactly the failed tasks matching every criteria pair under Python equality and returns their number; saves only when positive |
| Tasks.TaskQueue.RequeueEach | modules/core/task_queue.py:128-134 | the in-place loop computes the re-queued list and the count |
| Tasks.TaskQueue.ReviveEach | modules/core/task_queue.py:144-150 | the in-place loop computes the revived list and the count |
| Tasks.TaskQueue.HasTaskType | modules/core/task_queue.py:156-161 | true iff some pending or processing task has that type |
| Tasks.TaskQueue.ClearCompletedTasks | modules/core/task_queue.py:163-170 | keeps exactly the non-completed tasks in order and returns the removed count; saves only when positive |
| Dispatch.Lookup | modules/core/task_dispatcher.py:69 | a list or dict type raises TypeError (unhashable); otherwise a handler is found iff the type is a string registered in the map, and it is that entry |
| Dispatch.Decide | modules/core/task_dispatcher.py:63-97 | a truthy unhashable type escapes with the TypeError message; completed iff type, handler and agent are present and the handler returns something other than an error dict, and then with the handler's result; the fixed messages for a missing type, a missing handler and a missing agent |
| Dispatch.Settle | modules/core/task_dispatcher.py:83-97 | a completed verdict records the result, a failed one the error; an escaping one leaves the task as claimed |
| Dispatch.Step | modules/core/task_dispatcher.py:54-99 | one dispatch keeps the queue's length |
| Dispatch.StepError | modules/core/task_dispatcher.py:57-69 | a step raises iff the first pending task has a truthy, unhashable type |
| Dispatch.StepSettles | modules/core/task_dispatcher.py:54-99 | only the claimed task changes; the pending count drops by one, and the processing count grows by one exactly when the step raises |
| Dispatch.StepAt | modules/core/task_dispatcher.py:57-97 | the claimed task's final record is completed or failed, except when its type escapes, where it stays processing as claimed |
| Dispatch.SettledCounts | modules/core/task_dispatcher.py:92-97 | settling a pending task lowers the pending count by one and raises the processing count only if it stays processing |
| Dispatch.Drain | modules/core/task_dispatcher.py:101-106 | the length is kept; without a raise nothing is left pending and the processing count is unchanged; a raise leaves exactly one more task processing and fewer pending |
| Dispatch.DrainIdle | modules/core/task_dispatcher.py:101-106 | with nothing pending the drain changes nothing |
| Dispatch.DrainRaisesIff | modules/core/task_dispatcher.py:54-106 | the drain raises iff some pending task has a truthy, unhashable type, whatever the handlers do |
| Dispatch.DrainUnfold | modules/core/task_dispatcher.py:101-106 | one pass of the loop: nothing pending ends the drain unchanged, a raising step ends it right after that step with its error, any other step leaves the rest of the drain to the new queue |
| Dispatch.DrainAdvances | modules/core/task_dispatcher.py:101-106 | a step that finds a task and does not raise leaves the drain's outcome as it was and one task fewer pending, which is why the loop ends |
| Dispatch.DrainStops | modules/core/task_dispatcher.py:54-106 | a raising drain stops at such a task: nothing before it is pending, it stays processing, the tasks after it are untouched, and the error is its TypeError |
| Dispatch.EscapeStops | modules/core/task_dispatcher.py:54-106 | when the first pending task's type escapes, the drain stops at that task |
| Dispatch.StopsAtEarlier | modules/core/task_dispatcher.py:101-106 | a stop found after one settled step is a stop of the drain from before that step |
| Dispatch.DrainWithoutHandlers | modules/core/task_dispatcher.py:69-72 | with no handler registered nothing is completed; every pending task fails except the one a raise leaves processing and those after it |
| Dispatch.TaskDispatcher.constructor | modules/core/task_dispatcher.py:20-33 | empty handler and module maps |
| Dispatch.TaskDispatcher.RegisterHandler | modules/core/task_dispatcher.py:35-52 | the handler replaces any earlier one for the type when the module imports and defines it; otherwise nothing is registered |
| Dispatch.TaskDispatcher.ProcessNextTask | modules/core/task_dispatcher.py:54-99 | false iff no task was pending; the queue becomes one dispatch step; an escaping type raises its TypeError |
| Dispatch.TaskDispatcher.Run | modules/core/task_dispatcher.py:63-97 | the claimed task is settled by the decision and saved; an escaping type raises and saves nothing |
| Dispatch.TaskDispatcher.ProcessAllTasks | modules/core/task_dispatcher.py:101-106 | the queue is drained; returns the number of pending tasks found, or the exception that ended the drain |
| Cleaning.ShouldRemove | modules/core/task_cleaner.py:55-85 | a pending or processing task is never removed, and a removed one has a truthy `completed_time` |
| Cleaning.RemovedAreFinishedAndOld | modules/core/task_cleaner.py:55-85 | a removed task is completed or failed with a parseable `completed_time` strictly before the cutoff |
| Cleaning.RemovalMonotone | modules/core/task_cleaner.py:55-85 | a later cutoff removes at least as many tasks |
| Cleaning.CleanKeepsActive | modules/core/task_cleaner.py:39-53 | pending and processing tasks all survive, nothing removable survives, the survivors keep their order, and kept plus removed is the original count |
| Cleaning.KeepRemoveSplit | modules/core/task_cleaner.py:35-51 | kept plus removed equals the original count |
| Cleaning.AgeDays | modules/core/task_cleaner.py:117-126 | an age is 0 without a parseable completion or addition time |
| Cleaning.AgeDaysBounds | modules/core/task_cleaner.py:117-126 | the age is the whole days from the completion time to now |
| Cleaning.Details | modules/core/task_cleaner.py:111-114 | one detail per listed task |
| Cleaning.Take | modules/core/task_cleaner.py:113 | the first `n` entries, or all when fewer |
| Cleaning.TaskCleaner.constructor | modules/core/task_cleaner.py:16-18 | no backups yet |
| Cleaning.TaskCleaner.CleanSafe | modules/core/task_cleaner.py:20-53 | keeps exactly the non-removable tasks in order; the counts agree; saves only when something was removed; backs up when asked |
| Cleaning.TaskCleaner.Partition | modules/core/task_cleaner.py:39-41 | the loop splits the tasks into kept and removed |
| Cleaning.TaskCleaner.Sort | modules/core/task_cleaner.py:55-77 | one task goes to exactly one side |
| Cleaning.TaskCleaner.GetCleanupPreview | modules/core/task_cleaner.py:98-115 | the queue is unchanged, removed plus kept equals total, and there are at most 5 details, of the first removable tasks |
| Scheduling.DefaultTask | modules/self_improvement/improvement_scheduler.py:63-82 | the default task is a `self_improvement` of type `full_cycle` |
| Scheduling.LoadImprovementTasks | modules/self_improvement/improvement_scheduler.py:54-91 | a stored list (even an empty one) is the queue; a missing or undecodable file gives exactly the default task |
| Scheduling.ImprovementDescription | modules/self_improvement/improvement_scheduler.py:126-146 | a non-empty description is kept, otherwise a non-empty default |
| Scheduling.ImprovementTask | modules/self_improvement/improvement_scheduler.py:126-146 | type `self_improvement`, the given improvement type, options defaulting to `{}`, a non-empty description, and an id from type and time |
| Scheduling.MakeRecord | modules/self_improvement/improvement_scheduler.py:166-184 | `changes_applied` is the length of `improvement_results.changes`, 0 when absent; a non-dict `improvement_results` raises the AttributeError naming its type, an unsized `changes` the TypeError naming its type |
| Scheduling.InsertByTime | modules/self_improvement/improvement_scheduler.py:188 | inserting keeps the list newest-first and adds exactly that record |
| Scheduling.InsertKeepsBound | modules/self_improvement/improvement_scheduler.py:188 | a newest-first list stays newest-first behind a newer head |
| Scheduling.SortNewestFirst | modules/self_improvement/improvement_scheduler.py:188 | the sort is newest-first and a permutation of the history |
| Scheduling.SliceTo | modules/self_improvement/improvement_scheduler.py:195 | Python's `[:limit]`, including a negative limit |
| Scheduling.HistoryIsNewest | modules/self_improvement/improvement_scheduler.py:186-195 | the result is newest-first, at most `limit` records, drawn from the history, and no left-out record is newer than the last one returned |
| Scheduling.PrefixSplit | modules/self_improvement/improvement_scheduler.py:195 | a prefix of a newest-first list is newest-first and part of the list |
| Scheduling.PrefixBound | modules/self_improvement/improvement_scheduler.py:195 | every record after a prefix is no newer than the prefix's last one |
| Scheduling.ImprovementScheduler.constructor | modules/self_improvement/improvement_scheduler.py:23-52 | loads tasks and history; the default queue is written back only when the file was missing |
| Scheduling.ImprovementScheduler.AddTask | modules/self_improvement/improvement_scheduler.py:126-146 | appends exactly one improvement task and saves |
| Scheduling.ImprovementScheduler.GetNextTask | modules/self_improvement/improvement_scheduler.py:148-164 | removes and returns the first task (FIFO) and saves; None on an empty queue |
| Scheduling.ImprovementScheduler.RecordImprovement | modules/self_improvement/improvement_scheduler.py:166-184 | appends exactly one history record and saves, unless building it raises |
| Scheduling.ImprovementScheduler.GetImprovementHistory | modules/self_improvement/improvement_scheduler.py:186-195 | at most `limit` records, newest first, drawn from the history, which is not changed |
| Planner.BeforeIsStrictTotalOrder | modules/planning/self_improvement_planner.py:7-25 | the order on `(priority, insertion_time, task_id)` is irreflexive, transitive, total on distinct ids, and ignores `description` |
| Planner.EvaluatePriority | modules/planning/self_improvement_planner.py:51-78 | the priority is one of the six bands; 1.0 iff the lower-cased text mentions critical or bug; 5.0 iff it mentions none of the ten keywords |
| Planner.PriorityIgnoresCase | modules/planning/self_improvement_planner.py:63 | the priority of a text equals that of its lower-case form |
| Planner.MinIndex | modules/planning/self_improvement_planner.py:96-104 | no element is ordered before the chosen one |
| Planner.RemoveAt | modules/planning/self_improvement_planner.py:96-104 | removing one element keeps the others as a multiset |
| Planner.TaskCounter.constructor | modules/planning/self_improvement_planner.py:39-41 | the class counter starts at 0 |
| Planner.SelfImprovementPlanner.constructor | modules/planning/self_improvement_planner.py:43-49 | an empty queue |
| Planner.SelfImprovementPlanner.AddSelfImprovementTask | modules/planning/self_improvement_planner.py:80-94 | adds one task with the evaluated priority and a `task_id` greater than every earlier one |
| Planner.SelfImprovementPlanner.GetNextTask | modules/planning/self_improvement_planner.py:96-104 | removes and returns an element no other element precedes; None when empty |
| Planner.SelfImprovementPlanner.RemoveKeepsDistinct | modules/planning/self_improvement_planner.py:96-104 | removal keeps the ids distinct |
| Planner.SelfImprovementPlanner.FormSelfImprovementQueue | modules/planning/self_improvement_planner.py:125-132 | appends exactly the ten generated tasks in order, each with its evaluated priority, the given time and the next counter value, and nothing else |
| Planner.SelfImprovementPlanner.AddEach | modules/planning/self_improvement_planner.py:130-132 | one add per description in order: the queue gains exactly `PlannedBatch` of them, numbered from the counter, and the counter and the add count grow by their number |
| Planner.SelfImprovementPlanner.GetQueueSize | modules/planning/self_improvement_planner.py:134-136 | the size is the adds minus the successful pops |
| Planner.SelfImprovementPlanner.ViewTopTasks | modules/planning/self_improvement_planner.py:138-145 | returns `min(n, size)` tasks in order, drawn from the queue with nothing smaller left out, and leaves the queue unchanged |
| Planner.TakeLeast | modules/planning/self_improvement_planner.py:141-144 | one pop of the copy extends the sorted prefix |
| Planner.RestNotBeforeLeast | modules/planning/self_improvement_planner.py:141-144 | nothing left in the copy precedes the popped element |
| Planner.AppendInOrder | modules/planning/self_improvement_planner.py:141-144 | appending an element no earlier one follows keeps the order |
| Planner.RestNotBefore | modules/planning/self_improvement_planner.py:138-145 | the returned tasks are drawn from the queue and none left out precedes the last |
| PullRequests.NewEntry | modules/self_improvement/pull_request_monitor.py:43-54 | a new record is open with the given number |
| PullRequests.Checked | modules/self_improvement/pull_request_monitor.py:62-87 | entries without a number, or not reported merged or closed, are unchanged; a merged PR closed now becomes `merged_and_closed`; a failed close gives `merged_but_close_failed`; a closed one gives `closed_manually` |
| PullRequests.CheckedAll | modules/self_improvement/pull_request_monitor.py:62-87 | one checked entry per entry |
| PullRequests.Numbers | modules/self_improvement/pull_request_monitor.py:62-87 | one number per entry |
| PullRequests.CloseRequests | modules/self_improvement/pull_request_monitor.py:70-72 | at most one close request per entry |
| PullRequests.CheckAccounting | modules/self_improvement/pull_request_monitor.py:59-98 | survivors plus closed count never exceed the tracked entries, and no survivor is settled |
| PullRequests.OpenEntriesSurvive | modules/self_improvement/pull_request_monitor.py:86-94 | an entry whose PR is still open stays monitored unchanged |
| PullRequests.CloseRequestsAppend | modules/self_improvement/pull_request_monitor.py:62-87 | the close requests of a longer list extend those of the shorter |
| PullRequests.PullRequestMonitor.constructor | modules/self_improvement/pull_request_monitor.py:17-33 | the stored records, or none |
| PullRequests.PullRequestMonitor.AddPrToMonitor | modules/self_improvement/pull_request_monitor.py:43-54 | appends one open record, leaves the others unchanged and saves |
| PullRequests.PullRequestMonitor.CheckEntry | modules/self_improvement/pull_request_monitor.py:62-87 | one loop iteration: the checked entry, whether it was closed, and the close request issued |
| PullRequests.PullRequestMonitor.CheckAndCloseMergedPrs | modules/self_improvement/pull_request_monitor.py:56-98 | the monitored list becomes the order-preserving checked list without settled entries; the count is the merged PRs closed now; saves |
| PullRequests.PullRequestMonitor.CheckEach | modules/self_improvement/pull_request_monitor.py:62-91 | the loop computes the checked list, the closed count and the close requests |
| Agent.ExecConsistent | modules/utils/git_module.py:102-112 | whatever git does, the checked-out branch exists |
| Agent.ExecKeepsLog | modules/utils/git_module.py:140-190 | only deleting a branch loses commits; every other command keeps each branch's commits as a prefix |
| Agent.ExecKeepsBranches | modules/utils/git_module.py:167-190 | staging, committing and pushing leave the branch structure alone |
| Agent.GitRepo.constructor | modules/utils/git_module.py:36-62 | the repository starts with no command issued |
| Agent.GitRepo.RunCommand | modules/utils/git_module.py:102-112 | a command succeeds unless git refuses it or the environment fails it; failure is reported as false |
| Agent.GitRepo.GetCurrentBranch | modules/utils/git_module.py:114-127 | the checked-out branch, or the escaping decode error |
| Agent.GitRepo.IsWorkingDirectoryClean | modules/utils/git_module.py:129-138 | whether the tree is clean, or the escaping decode error |
| Agent.GitRepo.CreateAndCheckoutBranch | modules/utils/git_module.py:140-147 | `checkout -b` issued, with its effect when it succeeds |
| Agent.GitRepo.CheckoutBranch | modules/utils/git_module.py:149-156 | `checkout` issued, with its effect |
| Agent.GitRepo.DeleteBranch | modules/utils/git_module.py:158-165 | `branch -D` issued, with its effect |
| Agent.GitRepo.AddAll | modules/utils/git_module.py:167-172 | `add .` issued |
| Agent.GitRepo.Commit | modules/utils/git_module.py:174-181 | `commit` issued, with its effect |
| Agent.GitRepo.Push | modules/utils/git_module.py:183-190 | `push` issued, with its effect |
| Agent.GitRepo.CreatePullRequest | modules/utils/git_module.py:203-229 | no request without a connected repository; a failed request gives None |
| Agent.GitRepo.WorkOnTree | dev_agent.py:398 | the handlers' edits make the tree dirty |
| Agent.ImprovementRequest | dev_agent.py:384-396 | the one task enqueued is `self_improvement` of type `full_cycle` with `auto_fix` from the configuration |
| Agent.AutoPush | dev_agent.py:411 | succeeds iff the `git` section is a dict (absent counts as `{}`); false when the section is absent; true only when `auto_push` is set in it |
| Agent.Prelude | dev_agent.py:361-372 | succeeds iff both reads succeed, with the branch checked out beforehand; a failing read raises the decode error; a clean tree is left alone; a dirty one is committed on that branch with the auto-commit message unless git fails the commit |
| Agent.PublishOf | dev_agent.py:409-429 | raises iff the `git` section is not a dict; with `auto_push` off nothing happens; a PR number is the next one and only with `auto_push` on, a connected repository and a request that succeeds; a pushable branch is pushed; branches, commits and the tree are untouched |
| Agent.ChangesOf | dev_agent.py:400-431 | a failing status read raises the decode error; a clean tree gives no PR and no commit; a failed commit raises its message; a success commits the changes on the current branch; a PR only outside direct mode with `auto_push` on and a connected repository |
| Agent.Rollback | dev_agent.py:440-446 | issues the checkout and then the delete; a successful checkout returns to the original branch; the improvement branch is gone when both succeed; every other branch keeps its commits |
| Agent.SelfImproveOf | dev_agent.py:353-447 | the call raises iff a branch or status read fails, and then with the decode error, nothing enqueued and no PR; a PR only outside direct mode with `auto_push` on and a connected repository, numbered as the next one |
| Agent.OpenedOf | dev_agent.py:374-447 | once the original branch is known the call never raises: a branch that cannot be created is an error reply; a PR only outside direct mode with `auto_push` on and a connected repository, numbered as the next one |
| Agent.AttemptOf | dev_agent.py:379-447 | once the branch is open the task is always enqueued and the reply never raises, the rollback turning an exception into an error reply; PRs as guarded above |
| Agent.BodyOf | dev_agent.py:398-431 | an exception from the drain is the attempt's, after the handlers' edits; otherwise the commit and publishing of those edits |
| Agent.Improved | dev_agent.py:384-398 | the drain runs over the queue with the one improvement task appended |
| Agent.PreludeFacts | dev_agent.py:361-372 | reading the branch and auto-committing change no branch and push nothing |
| Agent.PublishFacts | dev_agent.py:409-429 | pushing and opening a PR change no branch, and happen only as allowed |
| Agent.ChangesFacts | dev_agent.py:400-431 | committing the run's changes and publishing change no branch, and publish only as allowed |
| Agent.PreludeResult | dev_agent.py:361-362 | the original branch is the one checked out beforehand; a failing read escapes as the decode error |
| Agent.AutoCommitDone | dev_agent.py:363-372 | a dirty tree is staged and committed on the original branch, and that commit lands unless git fails it |
| Agent.OpenFacts | dev_agent.py:375-377 | creating the improvement branch starts it at the original's commits and checks it out |
| Agent.ReturnFacts | dev_agent.py:434 | checking out an existing branch keeps every branch and its commits |
| Agent.RollbackFacts | dev_agent.py:440-446 | the rollback returns to the original branch and deletes the improvement branch when both commands succeed |
| Agent.AttemptSafe | dev_agent.py:379-431 | running the tasks and committing keep the branch structure and publish only as allowed |
| Agent.AttemptEnds | dev_agent.py:379-447 | from the improvement branch the attempt publishes only as allowed, loses no commit outside the improvement branch, and ends on the original branch unless that checkout fails |
| Agent.OpenedBranchKeeps | dev_agent.py:374-447 | outside direct mode, once the branch is created, no pre-existing commit is lost and publishing is guarded |
| Agent.OpenedKeeps | dev_agent.py:374-447 | from the original branch: nothing lost, back on the original, publishing guarded |
| Agent.NoCommitLost | dev_agent.py:353-447 | whatever git and the tasks do, no branch that existed loses a commit and the checked-out branch exists |
| Agent.EndsOnOriginal | dev_agent.py:433-446 | `self_improve` ends on the branch it started on, unless checking that branch out again fails |
| Agent.PublishGuarded | dev_agent.py:409-429 | a push or PR happens only outside direct mode with `auto_push` on, and a PR only when connected |
| Agent.SelfImproveKeeps | dev_agent.py:353-447 | the whole call keeps every commit and guards publishing |
| Agent.AutoCommitKept | dev_agent.py:363-372 | the automatic commit survives the whole run on the original branch and is never rolled back |
| Agent.AheadPath | dev_agent.py:374-447 | a run that goes ahead is the attempt from the work state, which is on the improvement branch outside direct mode |
| Agent.EnqueuedExactly | dev_agent.py:384-398 | the improvement task is enqueued exactly when the run goes ahead; otherwise no PR is opened |
| Agent.ReadFailureEscapes | dev_agent.py:361-363 | a failing branch or status read escapes before anything is enqueued or any branch command |
| Agent.BranchFailureStops | dev_agent.py:375-377 | when the branch cannot be created an error is returned, nothing is enqueued and the original branch stays checked out |
| Agent.DirectModeKeepsBranches | dev_agent.py:375-447 | direct mode issues no branch command and opens no PR |
| Agent.AttemptFailed | dev_agent.py:440-447 | an exception on the improvement branch checks out the original again and deletes the branch |
| Agent.AttemptSucceeded | dev_agent.py:433-438 | success keeps the improvement branch and checks out the original again |
| Agent.RollbackRestores | dev_agent.py:440-447 | after a failure inside the transaction the original branch is back and the improvement branch is gone (a failed commit of the changes raises into this path) |
| Agent.SuccessKeepsBranch | dev_agent.py:433-438 | a successful run outside direct mode keeps the improvement branch and returns to the original |
| Agent.WithAutoFix | dev_agent.py:509-510 | `options.auto_fix` is set from the configuration when options exist; non-dict options raise |
| Agent.FirstReport | dev_agent.py:520-527 | the first task whose id equals the scheduled id under Python equality and that is completed or failed |
| Agent.ReportOf | dev_agent.py:521-527 | the reply carries the status and the result or the error |
| Agent.ScheduledResult | dev_agent.py:519-527 | a reply exists iff a task with the scheduled id is terminal |
| Agent.CheckOf | dev_agent.py:498-527 | without a scheduled task (or with an empty one) no reply and the queue unchanged; a raise leaves the queue unchanged; a reply is always that of a task with the scheduled id |
| Agent.ScheduledWaitsBehindOlder | dev_agent.py:511-514 | when an older task is pending, the scheduled task is appended normalised and stays at the end, untouched by the one dispatch step |
| Agent.ScheduledReported | dev_agent.py:519-527 | the reply is that of the first task with the scheduled id that is completed or failed |
| Agent.InstallAll | dev_agent.py:300-326 | without the import nothing is registered |
| Agent.InstallAllKeeps | dev_agent.py:300-326 | a task type the registrations do not name keeps its handler or its absence |
| Agent.InstallAllFinds | dev_agent.py:300-326 | a registration whose function the module defines stands when no later one names the same type |
| Agent.HandlerTypesDistinct | dev_agent.py:303-325 | the eleven registered task types are distinct |
| Agent.RegisteredDispatches | dev_agent.py:300-326 | after registration each of the eleven types looks up to its own `handle_<type>_task`, and a task of that type neither escapes nor lacks a handler |
| Agent.TasksToLoad | dev_agent.py:328-351 | the stored tasks come first; without an error-fix file the tasks are exactly the loaded file |
| Agent.DevAgent.constructor | dev_agent.py:73-77 | the queue is loaded and tasks left processing are put back to pending |
| Agent.DevAgent.RequeueStuckTasks | dev_agent.py:73-77 | processing tasks are re-queued |
| Agent.DevAgent.LoadTasks | dev_agent.py:328-351 | the loaded tasks are appended to the queue |
| Agent.DevAgent.Prepare | dev_agent.py:361-372 | the state after the reads and the auto-commit |
| Agent.DevAgent.Publish | dev_agent.py:409-429 | push and PR as `PublishOf`; an opened PR is handed to the monitor |
| Agent.DevAgent.CommitChanges | dev_agent.py:400-431 | commits the run's changes and publishes them |
| Agent.DevAgent.SelfImprove | dev_agent.py:353-447 | without a git module an error and no git call; otherwise the reply, git state and queue of `SelfImproveOf` |
| Agent.DevAgent.Proceed | dev_agent.py:374-447 | the part after the reads |
| Agent.DevAgent.Transact | dev_agent.py:379-447 | enqueue, drain, then the rest of the `try` |
| Agent.DevAgent.Attempt | dev_agent.py:400-447 | the rest of the `try` and its `except` |
| Agent.DevAgent.CheckScheduledTasks | dev_agent.py:492-527 | None without a scheduler or with an empty one; otherwise as `CheckOf` |
| Agent.DevAgent.FindReport | dev_agent.py:520-527 | the search loop finds the first reporting task |
| Agent.DevAgent.RegisterHandlers | dev_agent.py:300-326 | the module is imported once when importable, and the handlers become the eleven registrations in order |
| Agent.DevAgent.LoadAndDrain | dev_agent.py:584-595 | loads from the files exactly when nothing is pending or processing; the passes end with the queue as the drain of the loaded queue, and with that drain's exception if it raised |
| Agent.DevAgent.Run | dev_agent.py:575-600 | registers the eleven handlers first; loads from the files only when nothing is pending or processing; the queue ends as the drain with those handlers, and the drain's exception is the one `run` lets out |
| Modules.LoadOne | modules/core/module_registry.py:67-92 | an already-registered name is kept without importing; otherwise the class is registered iff it imports and is defined |
| Modules.LoadAll | modules/core/module_registry.py:153-158 | every earlier registration is kept and only core names are added |
| Modules.LoadStep | modules/core/module_registry.py:153-158 | every entry is attempted, whatever earlier ones did |
| Modules.AllLoadIff | modules/core/module_registry.py:153-158 | the success flag is true iff every `load` returns true |
| Modules.CoreNamesDistinct | modules/core/module_registry.py:140-151 | the core module names are distinct |
| Modules.ModuleRegistry.constructor | modules/core/module_registry.py:17-22 | a fresh, uninitialised registry |
| Modules.ModuleRegistry.Init | modules/core/module_registry.py:24-31 | re-initialising does not clear `modules` or `instances` |
| Modules.ModuleRegistry.Register | modules/core/module_registry.py:34-50 | false and no change for an existing name; otherwise inserts and returns true |
| Modules.ModuleRegistry.Get | modules/core/module_registry.py:52-65 | the class, or None for an absent name |
| Modules.ModuleRegistry.Load | modules/core/module_registry.py:67-92 | true without importing for a registered name; otherwise registers iff import and lookup succeed |
| Modules.ModuleRegistry.Create | modules/core/module_registry.py:94-117 | None for an unregistered name or a constructor exception, with `instances` unchanged; otherwise `instances[name]` is the new object |
| Modules.ModuleRegistry.GetInstance | modules/core/module_registry.py:119-132 | the instance, or None for an absent name |
| Modules.ModuleRegistry.LoadCoreModules | modules/core/module_registry.py:134-158 | returns true iff every core load succeeds, and attempts all entries |
| Modules.ModuleRegistry.LoadEntries | modules/core/module_registry.py:153-158 | the loop loads each entry and conjoins the results |
| Modules.ModuleRegistry.RegisterDecorator | modules/core/module_registry.py:160-174 | returns the class itself and registers it unless the name is taken |
| Modules.RegistryHolder.constructor | modules/core/module_registry.py:15 | no instance yet |
| Modules.RegistryHolder.Obtain | modules/core/module_registry.py:17-22 | the singleton: the same object every time, with its maps kept |
| Handlers.Register | modules/core/handler_registry.py:21-27 | the type maps to the new function and every other entry is kept |
| Handlers.Lookup | modules/core/handler_registry.py:32-48 | the registered handler; KeyError iff none is registered |
| Handlers.LookupAfterRegister | modules/core/handler_registry.py:21-48 | after registering `f` for `t`, `get_handler(t)` is `f` and other types are unaffected |
| Handlers.HandlerRegistry.constructor | modules/core/handler_registry.py:8 | the registry starts empty |
| Handlers.HandlerRegistry.RegisterHandler | modules/core/handler_registry.py:11-29 | the decorator returns the function itself and overwrites any earlier handler |
| Handlers.HandlerRegistry.GetHandler | modules/core/handler_registry.py:32-48 | the lookup in the current registry: the registered handler, and KeyError iff the type has none |
| Handlers.HandlerRegistry.GetRegistry | modules/core/handler_registry.py:51-53 | a copy: a value equal to the registry |
| Planning.StripFences | modules/planning/planning_module.py:214-219 | without a leading fence or trailing fence the text is unchanged; it never grows |
| Planning.StripFencesUnwraps | modules/planning/planning_module.py:214-219 | a fenced trimmed body comes back exactly |
| Planning.StatusReply | modules/planning/planning_module.py:53 | the reply carries the given status |
| Planning.HandleTask | modules/planning/planning_module.py:38-65 | an error iff the type is unknown, or `process_master_plan` has no plan path; otherwise the right operation is called |
| Planning.MeetsTypeRequirements | modules/planning/planning_module.py:243-262 | a type outside the five checked ones needs nothing more; a refactoring task needs truthy `target_files` and `refactoring_type` |
| Planning.IsValidTask | modules/planning/planning_module.py:233-264 | a valid task is a dict with `type` and `description`; one with a falsy type needs nothing more |
| Planning.Validated | modules/planning/planning_module.py:229-266 | raises iff some task breaks the log summary (a description that is not a string) |
| Planning.ValidateTasks | modules/planning/planning_module.py:229-266 | the loop computes `Validated` |
| Planning.ValidatedKeepsValid | modules/planning/planning_module.py:232-266 | the kept tasks are exactly the dicts with `type`, `description` and their type's required fields, as an order-preserving subsequence |
| Planning.CodeGenerationNeedsOutputFile | modules/planning/planning_module.py:244-246 | a `code_generation` task without `output_file` is dropped |
| Planning.PlanTasks | modules/planning/planning_module.py:210-301 | an exception from the model gives the plan-error text; a list answer is validated as it stands; a text answer is decoded once its fences are stripped, a decode failure giving the decode-error text and a decoded list being validated; any other answer, or a decoded non-list, raises ValueError naming its type; a validation error carries the plan-error prefix |
| Planning.PlainAnswerDecoded | modules/planning/planning_module.py:214-225 | an answer without fences is decoded as it stands and its list validated |
| Planning.FieldsOf | modules/planning/planning_module.py:269-272 | one dict per value |
| Planning.ProcessMasterPlanFile | modules/planning/planning_module.py:166-301 | a missing plan file gives the not-found error; `options` that are not a dict give the plan-error reply with the AttributeError text and queue nothing; a planning failure gives its error reply; on success the valid tasks are enqueued when the queue exists, and the reply counts them |
| Planning.NonListAnswerRefused | modules/planning/planning_module.py:227-228 | a non-list answer raises ValueError naming its type |
| Planning.FencedAnswerDecoded | modules/planning/planning_module.py:214-226 | a fenced JSON list is decoded and validated |
| Planning.DedupByDescription | modules/planning/planning_module.py:398-407 | the loop keeps the first task of each description not already queued |
| Planning.DedupProperties | modules/planning/planning_module.py:398-418 | no kept description was queued, no two kept tasks share a description, every dropped one was queued or repeated, and order is preserved |
| Planning.DescribedDicts | modules/planning/planning_module.py:398-405 | a list goes item by item; a non-empty dict or string raises AttributeError on `str.get`; a scalar is not iterable; every kept description is hashable |
| Planning.DescribedItems | modules/planning/planning_module.py:398-405 | succeeds iff every item is a dict with a hashable description, and then gives each item's dict in order |
| Planning.DescribedItemsError | modules/planning/planning_module.py:398-405 | the first item that is not a dict raises AttributeError, the first list or dict description raises TypeError |
| Planning.KeyModulePlan | modules/planning/planning_module.py:353-418 | the error replies for a missing analyzer or failed identification; `options` that are not a dict raise AttributeError; the success reply with `tasks_created` 0 when no key modules are found, and the error reply without a queue; once the queue exists, it raises iff the queued tasks or the suggestions cannot be read as dicts with hashable descriptions, the queue file first; otherwise the new tasks are the first suggestion of each description not already queued, enqueued exactly when some exist, and `tasks_created` is their number |
| Planning.PlanKeyModules | modules/planning/planning_module.py:353-418 | enqueues exactly the planned new tasks and returns the planned reply, or lets its AttributeError or TypeError escape |
| Dependencies.ImportMatchesItsFile | modules/analysis/dependency_analyzer.py:97-108 | an import matches its own `.py` file and package `__init__.py` |
| Dependencies.FirstMatchFrom | modules/analysis/dependency_analyzer.py:158-167 | the first matching candidate at or after a position |
| Dependencies.Resolve | modules/analysis/dependency_analyzer.py:158-167 | the first matching target, None iff none matches |
| Dependencies.FindTarget | modules/analysis/dependency_analyzer.py:158-167 | the loop stops at the first match |
| Dependencies.Collected | modules/analysis/dependency_analyzer.py:77-89 | exactly the existing files whose imports extract successfully are analysed, with their imports |
| Dependencies.CollectImports | modules/analysis/dependency_analyzer.py:77-89 | the loop computes the imports map |
| Dependencies.Resolutions | modules/analysis/dependency_analyzer.py:93-108 | one resolution per import |
| Dependencies.Dedup | modules/analysis/dependency_analyzer.py:110-112 | the dependencies are distinct |
| Dependencies.DedupMembers | modules/analysis/dependency_analyzer.py:110-112 | a file is a dependency iff some import resolves to it |
| Dependencies.DepsOf | modules/analysis/dependency_analyzer.py:91-112 | an adjacency list has no duplicates and only target files |
| Dependencies.DepsOfResolved | modules/analysis/dependency_analyzer.py:91-112 | a target is listed iff some import of the file matches it |
| Dependencies.FileDeps | modules/analysis/dependency_analyzer.py:93-112 | the loop computes the adjacency list |
| Dependencies.BuildGraph | modules/analysis/dependency_analyzer.py:63-114 | the keys are exactly the analysed files, each with its adjacency list |
| Dependencies.DependencyGraphShape | modules/analysis/dependency_analyzer.py:90-114 | every adjacency list is duplicate-free and within the targets |
| Dependencies.NodesOf | modules/analysis/dependency_analyzer.py:147-153 | one node per analysed file |
| Dependencies.EdgesFrom | modules/analysis/dependency_analyzer.py:155-167 | at most one edge per import, from that file to an analysed file |
| Dependencies.EdgesOf | modules/analysis/dependency_analyzer.py:155-167 | the edges number at most the imports, between analysed files |
| Dependencies.SourceEdges | modules/analysis/dependency_analyzer.py:156-167 | the loop computes the file's edges |
| Dependencies.ImportGraph | modules/analysis/dependency_analyzer.py:116-169 | one node per analysed file (path and basename), and the edges from each analysed file to the files its imports resolve to |
| Dependencies.ImportGraphShape | modules/analysis/dependency_analyzer.py:147-169 | one node per analysed file, at most one edge per import, edges between analysed files |
| Dependencies.Nodes | modules/analysis/dependency_analyzer.py:292-300 | every key and neighbour is a node |
| Dependencies.Push | modules/analysis/dependency_analyzer.py:292-293 | pushing a node shrinks the unvisited set (the search terminates) |
| Dependencies.CycleSearch.constructor | modules/analysis/dependency_analyzer.py:197-199 | an empty path, visited set and cycle list |
| Dependencies.CycleSearch.Dfs | modules/analysis/dependency_analyzer.py:273-306 | appends exactly the search's cycles, and restores `path` and `visited` on return |
| Dependencies.CycleSearch.Explore | modules/analysis/dependency_analyzer.py:295-303 | the neighbour loop appends the cycles of each neighbour in turn |
| Dependencies.CycleSearch.Step | modules/analysis/dependency_analyzer.py:296-300 | a neighbour equal to the start closes a cycle; an unvisited one recurses |
| Dependencies.ExtendPath | modules/analysis/dependency_analyzer.py:299-300 | an edge to an unvisited node extends the search path |
| Dependencies.ClosePath | modules/analysis/dependency_analyzer.py:296-298 | an edge back to the start closes a cycle |
| Dependencies.SearchCycles | modules/analysis/dependency_analyzer.py:292-306 | every recorded cycle starts and ends at the start node, follows edges, and repeats no other node |
| Dependencies.VisitCycles | modules/analysis/dependency_analyzer.py:295-303 | the same for each neighbour loop |
| Dependencies.UniqueCycles | modules/analysis/dependency_analyzer.py:204-211 | keeps the first cycle of each sorted-node signature, in discovery order |
| Dependencies.SearchAll | modules/analysis/dependency_analyzer.py:194-200 | a search from every analysed file |
| Dependencies.CircularDependencies | modules/analysis/dependency_analyzer.py:171-217 | the graph as built, then the deduplicated cycles of all searches |
| Dependencies.CircularDependenciesSound | modules/analysis/dependency_analyzer.py:171-217 | the result is a subsequence of the found cycles, each a real cycle, no two with the same files |
| Dependencies.AllCyclesAreCycles | modules/analysis/dependency_analyzer.py:194-200 | every cycle found is a cycle of the graph |
| Dependencies.LengthError | modules/analysis/dependency_analyzer.py:49 | `len(target_files)` raises iff the value is not a list, string or dict |
| Dependencies.TargetFiles | modules/analysis/dependency_analyzer.py:46-78 | a list of strings is taken as is, a string by its characters; a list with another item raises |
| Dependencies.HandleTask | modules/analysis/dependency_analyzer.py:33-61 | the `len` in the log line raises first; an unsupported `analysis_type` returns the error reply; a supported one raises iff the target files cannot be walked, and otherwise returns the dependency graph, the import graph, or the deduplicated cycles of the graph with the number of files analysed |
| SelfAnalysis.SeverityScore | modules/self_improvement/self_analyzer.py:45-49 | a score in {1, 3, 5} |
| SelfAnalysis.EffortScore | modules/self_improvement/self_analyzer.py:47-50 | a score in {1, 3, 5} |
| SelfAnalysis.PriorityScore | modules/self_improvement/self_analyzer.py:45-53 | the product is in {1,3,5,9,15,25} |
| SelfAnalysis.PriorityScoreOrdering | modules/self_improvement/self_analyzer.py:45-53 | increasing in severity, decreasing in effort, ignoring case, 9 for unknown labels |
| SelfAnalysis.Score | modules/self_improvement/self_analyzer.py:76-81 | adds only `priority_score` |
| SelfAnalysis.ScoreAll | modules/self_improvement/self_analyzer.py:76-81 | one scored opportunity per input, in order |
| SelfAnalysis.AnalyzeScoresRelevant | modules/self_improvement/self_analyzer.py:66-84 | the result is the filtered opportunities, in order, each scored, none mentioning trading, crypto, binance or exchange |
| SelfAnalysis.ScoredKeepsDescription | modules/self_improvement/self_analyzer.py:76-81 | scoring keeps the description, so a kept opportunity stays kept |
| SelfAnalysis.AnalyzeCodebase | modules/self_improvement/self_analyzer.py:55-84 | filter then score |
| SelfAnalysis.FilterRelevant | modules/self_improvement/self_analyzer.py:66-73 | the comprehension as a loop |
| SelfAnalysis.ScoreEach | modules/self_improvement/self_analyzer.py:75-81 | the scoring loop |
| SelfAnalysis.ScoreRaiseSticks | modules/self_improvement/self_analyzer.py:75-81 | a raising opportunity stops the loop |
| SelfAnalysis.Relevant | modules/self_improvement/self_analyzer.py:66-73 | succeeds iff every description is a string; keeps an order-preserving subsequence whose descriptions mention no excluded keyword |
| SelfAnalysis.Analyze | modules/self_improvement/self_analyzer.py:55-84 | one scored opportunity per relevant one, each with a `priority_score`; a filter failure passes through |
| SelfAnalysis.HandleTask | modules/self_improvement/self_analyzer.py:22-30 | the error reply naming any other `analysis_type`; for `codebase_review` and `full_project_analysis` it succeeds iff the analysis does, with status success and the found opportunities in order |
| Config.Defaults | modules/utils/config_manager.py:25-32 | the defaults include a `model_parameters` dict |
| Config.Walk | modules/utils/config_manager.py:58-66 | a found value lies under a dict holding the first key; one key is a plain dict lookup |
| Config.GetKey | modules/utils/config_manager.py:55-68 | an undotted key is a lookup with the default; a dotted key that misses gives the default |
| Config.SetKey | modules/utils/config_manager.py:70-82 | an undotted set adds exactly that key; a successful set reads back the value under the same key |
| Config.LoadConfig | modules/utils/config_manager.py:23-44 | the defaults shallow-updated by the file's dict; a non-dict or unreadable file leaves the defaults |
| Config.SetPath | modules/utils/config_manager.py:73-80 | creating intermediates changes only the first key |
| Config.WalkAfterSetPath | modules/utils/config_manager.py:55-80 | after a dotted set, the dotted get returns the value |
| Config.SetPathFailsIff | modules/utils/config_manager.py:73-80 | a dotted set fails iff some existing intermediate is not a dict |
| Config.ConfigManager.constructor | modules/utils/config_manager.py:17-21 | the loaded configuration |
| Config.ConfigManager.SaveConfig | modules/utils/config_manager.py:46-53 | the file snapshot becomes the configuration |
| Config.ConfigManager.Get | modules/utils/config_manager.py:55-68 | a dotted key walks nested dicts and returns the default on any miss; an undotted key is a plain lookup |
| Config.ConfigManager.Set | modules/utils/config_manager.py:70-82 | a dotted set creates intermediates and then reads back; a failing one changes nothing; an undotted set changes that key only |
| Config.ConfigManager.Update | modules/utils/config_manager.py:84-86 | a shallow merge |
| Config.ConfigManager.GetModelParams | modules/utils/config_manager.py:88-90 | `model_parameters`, or `{}` |
| JsonAnalysis.Validate | modules/utils/json_analyzer.py:163-194 | a schema that is not a dict raises AttributeError; only an `object` or `array` schema can reject or raise; an object schema rejects a non-dict |
| JsonAnalysis.RequiredItems | modules/utils/json_analyzer.py:176-179 | passes iff every listed name is a string key of the object |
| JsonAnalysis.PropertiesAll | modules/utils/json_analyzer.py:182-186 | the property loop passes iff every present described field validates |
| JsonAnalysis.ItemsAll | modules/utils/json_analyzer.py:189-192 | the item loop passes iff every item validates |
| JsonAnalysis.ItemsAppend | modules/utils/json_analyzer.py:189-192 | the loop over a concatenation is the first part's, then the second's if the first passed |
| JsonAnalysis.ValidateTypeAndRequired | modules/utils/json_analyzer.py:163-179 | a non-dict schema raises; an object schema rejects a non-dict, an array schema a non-list; a valid object has every required field (list names, string characters or dict keys), and `required` is then iterable |
| JsonAnalysis.RequiredListOutcome | modules/utils/json_analyzer.py:175-179 | the first list or dict name in `required` raises TypeError (unhashable); the first other missing name gives False |
| JsonAnalysis.RequiredItemsOutcome | modules/utils/json_analyzer.py:176-179 | the same for the loop over the names |
| JsonAnalysis.WellFormedNeverRaises | modules/utils/json_analyzer.py:163-194 | a dict schema whose `required` is a string, dict or list of hashable names and whose nested schemas are well formed never makes the validator raise |
| JsonAnalysis.UntypedAcceptsAll | modules/utils/json_analyzer.py:163-194 | a schema without `type` accepts everything |
| JsonAnalysis.ValidateProperty | modules/utils/json_analyzer.py:181-186 | a present property is validated recursively |
| JsonAnalysis.ExtraFieldAllowed | modules/utils/json_analyzer.py:181-186 | a field outside `properties` and `required` does not matter |
| JsonAnalysis.ValidateArrayAppend | modules/utils/json_analyzer.py:188-192 | an array validates iff both halves of any split do, so iff every item validates against `items` |
| JsonAnalysis.QuoteCountAppend | modules/utils/json_analyzer.py:102-111 | the scan of a concatenation is the scan of the parts |
| JsonAnalysis.FixUnclosedQuotes | modules/utils/json_analyzer.py:95-117 | the input plus one `"` iff the count of unescaped quotes is odd, else the input |
| JsonAnalysis.FixUnclosedQuotesBalances | modules/utils/json_analyzer.py:95-117 | the repair balances the quotes unless the input ends in a dangling backslash |
| JsonAnalysis.DanglingBackslashStaysOpen | modules/utils/json_analyzer.py:103-115 | as written, `"\` becomes `"\"`, which still has one unescaped quote |
| JsonAnalysis.CloseQuotes | modules/utils/json_analyzer.py:95-117 | the intended repair always leaves an even count and only appends |
| JsonAnalysis.SkipSpaces | modules/utils/json_analyzer.py:122 | the `\s*` run |
| JsonAnalysis.FixMissingCommas | modules/utils/json_analyzer.py:119-125 | the repair keeps the first character and grows by at most half |
| JsonAnalysis.NoMatchUnchanged | modules/utils/json_analyzer.py:119-125 | without a closer-then-opener match nothing changes |
| JsonAnalysis.MatchChanges | modules/utils/json_analyzer.py:119-125 | with a match the text changes |
| JsonAnalysis.FixLeavesNoMatch | modules/utils/json_analyzer.py:119-125 | afterwards no closer is followed by spaces and an opener |
| JsonAnalysis.FixMissingCommasIdempotent | modules/utils/json_analyzer.py:119-125 | the repair is idempotent, and changes the text iff it has a match |
| BlockExtraction.Classify | modules/analysis/code_block_extractor.py:149-174 | class is tried before function before section |
| BlockExtraction.HeadersBelow | modules/analysis/code_block_extractor.py:157-174 | the header lines, in increasing order; none iff no line is a header |
| BlockExtraction.HeadersComplete | modules/analysis/code_block_extractor.py:157-174 | every header line is listed |
| BlockExtraction.SpanCodeJoins | modules/analysis/code_block_extractor.py:164 | a block's code is its lines joined with newlines |
| BlockExtraction.RegexBlocks | modules/analysis/code_block_extractor.py:130-182 | one block per header line |
| BlockExtraction.RegexBlockAt | modules/analysis/code_block_extractor.py:162-180 | a block spans from its header up to the next header; the last runs to the end with `end_line == len(lines)`, earlier ones have no `end_line` |
| BlockExtraction.RegexBlocksOrdered | modules/analysis/code_block_extractor.py:157-180 | blocks are in increasing `start_line` order |
| BlockExtraction.RegexBlocksEmpty | modules/analysis/code_block_extractor.py:155-182 | no header lines iff no blocks |
| BlockExtraction.SpansCover | modules/analysis/code_block_extractor.py:162-180 | the blocks' lines together are the lines from the first header on |
| BlockExtraction.ScanLine | modules/analysis/code_block_extractor.py:157-174 | one loop iteration keeps the scan invariant |
| BlockExtraction.ExtractBlocksUsingRegex | modules/analysis/code_block_extractor.py:130-182 | success with the regex blocks of the split code |
| BlockExtraction.CloseLast | modules/analysis/code_block_extractor.py:176-180 | closing the last block completes the regex blocks |
| BlockExtraction.RegexBlocksAre | modules/analysis/code_block_extractor.py:155-182 | the scan's blocks are the regex blocks |
| BlockExtraction.ScanEnd | modules/analysis/code_block_extractor.py:212-226 | the first closing line at or after a position, else the end |
| BlockExtraction.NodeEnd | modules/analysis/code_block_extractor.py:198-226 | `end_lineno` when present; otherwise it raises IndexError iff the header's line number is beyond the text, and else ends between the header and the last line |
| BlockExtraction.NodeEndIsSmallest | modules/analysis/code_block_extractor.py:203-226 | without `end_lineno`, the smallest index from `start_line` with a non-blank line indented at most the header's, else `len(lines)`, within [`start_line`, `len(lines)`] |
| BlockExtraction.ScanEndIsFirst | modules/analysis/code_block_extractor.py:212-226 | the scan result is the first closing line |
| BlockExtraction.LineCloses | modules/analysis/code_block_extractor.py:213-216 | a line closes the block iff it is non-blank and indented at most the header |
| BlockExtraction.FindNodeEnd | modules/analysis/code_block_extractor.py:184-226 | `end_lineno` when present, otherwise the indentation scan |
| BlockExtraction.ScanFrom | modules/analysis/code_block_extractor.py:203-226 | the scan loop |
| BlockExtraction.Slice | modules/analysis/code_block_extractor.py:90 | Python's clamped slice |
| BlockExtraction.Extracted | modules/analysis/code_block_extractor.py:83-123 | only class and function nodes become blocks, and a function node exactly when it is at top level |
| BlockExtraction.AstBlocks | modules/analysis/code_block_extractor.py:83-123 | at most one block per node |
| BlockExtraction.AstBlocksKinds | modules/analysis/code_block_extractor.py:83-123 | classes at any depth and only top-level functions become blocks |
| BlockExtraction.ExtractBlocksUsingAst | modules/analysis/code_block_extractor.py:66-128 | the loop computes the AST extraction: a parse failure or a failing node is an error reply, otherwise the blocks of the walked nodes |
| BlockExtraction.AstRaiseSticks | modules/analysis/code_block_extractor.py:83-128 | a failing node stops the walk |
| BlockExtraction.ExtractBlocksFromCode | modules/analysis/code_block_extractor.py:37-64 | `.py` goes to the AST extractor, everything else to the regex extractor |
| BlockExtraction.ExtractionAsWritten | modules/analysis/code_block_extractor.py:37-64 | a path not ending in `.py` gives the regex blocks; a `.py` file that does not parse gives the syntax error, one that parses the AST extraction |
| BlockExtraction.SyntaxErrorNotRecovered | modules/analysis/code_block_extractor.py:53-61 | as written, a syntax error in a `.py` file gives an error reply, not the regex fallback |
| BlockExtraction.IntendedExtraction | modules/analysis/code_block_extractor.py:53-61 | the intended choice: the regex extractor for non-`.py` paths and for `.py` code that does not parse |
| BlockExtraction.ExtractionDiffersOnlyOnSyntaxError | modules/analysis/code_block_extractor.py:53-61 | the written and intended choices differ exactly on `.py` code with a syntax error |
| Generation.Unlines | modules/utils/code_generator.py:82-83 | every emitted line ends in a newline |
| Generation.UnlinesAppend | modules/utils/code_generator.py:82-83 | emitting two runs of lines is emitting their concatenation |
| Generation.Prefixed | modules/utils/code_generator.py:99-100 | each body line is prefixed by the indentation |
| Generation.DocLines | modules/utils/code_generator.py:79-80 | one docstring line iff the docstring is non-empty |
| Generation.MethodText | modules/utils/code_generator.py:64-85 | a method's text starts with a blank line and `def <name>(self` at the current indentation, and ends with a newline |
| Generation.FunctionText | modules/utils/code_generator.py:87-102 | a function's text starts with `def <name>(` at the current indentation and ends with a newline |
| Generation.InitText | modules/utils/code_generator.py:47-56 | the `__init__` text starts with `def __init__(self` at the current indentation and ends with a blank line |
| Generation.ClassText | modules/utils/code_generator.py:26-62 | a class's text starts with `class <name>` at the current indentation |
| Generation.CodeGenerator.constructor | modules/utils/code_generator.py:8-11 | level 0 and the given indent string |
| Generation.CodeGenerator.Indent | modules/utils/code_generator.py:13-15 | the level grows by 1 and the indentation by one indent string |
| Generation.CodeGenerator.Dedent | modules/utils/code_generator.py:17-20 | the level drops by 1 but never below 0 |
| Generation.CodeGenerator.EmitLines | modules/utils/code_generator.py:82-83 | the lines at the current indentation, each with a newline |
| Generation.CodeGenerator.GenerateMethod | modules/utils/code_generator.py:64-85 | the method text (signature, docstring line, body or `pass`); the level is back to its entry value |
| Generation.CodeGenerator.GenerateFunction | modules/utils/code_generator.py:87-102 | the function text; the level is back to its entry value |
| Generation.CodeGenerator.GenerateClass | modules/utils/code_generator.py:26-62 | the class text; the level is back to its entry value |
| Generation.CodeGenerator.GenerateClassBody | modules/utils/code_generator.py:41-59 | the body text; the level is restored |
| Generation.CodeGenerator.GenerateInit | modules/utils/code_generator.py:47-56 | the `__init__` text; the level is restored |
| Generation.CodeGenerator.GenerateMethods | modules/utils/code_generator.py:58-59 | the methods' texts; the level is restored |
| Generation.RepeatAdd | modules/utils/code_generator.py:24 | repetition adds up |
| Generation.RepeatNoNewline | modules/utils/code_generator.py:24 | an indent without a newline repeats without one |
| Generation.MethodsTextStartsNewline | modules/utils/code_generator.py:72 | every method text starts with a blank line |
| Generation.MembersAreNotPass | modules/utils/code_generator.py:44-59 | members never render as the bare `pass` line |
| Generation.ClassPassIff | modules/utils/code_generator.py:44-45 | the class emits a `pass` line iff it has no attributes and no methods |
| Refactoring.TypeValue | modules/refactoring/refactoring_module.py:9-20 | every enum value is a non-empty string |
| Refactoring.TypeValuesDistinct | modules/refactoring/refactoring_module.py:9-20 | distinct kinds have distinct values |
| Refactoring.DescriptionOr | modules/refactoring/refactoring_module.py:63-64 | an empty description is replaced by the default; a non-empty one is kept |
| Refactoring.NewRenameSymbol | modules/refactoring/refactoring_module.py:45-67 | type RENAME_SYMBOL whatever was passed; the default description; metadata gains `old_name` and `new_name` and keeps the rest |
| Refactoring.NewAddTypeHint | modules/refactoring/refactoring_module.py:70-100 | type ADD_TYPE_HINT; `position_in_line` is recorded only when not None |
| Refactoring.NewReplaceDeprecated | modules/refactoring/refactoring_module.py:103-129 | type REPLACE_DEPRECATED; the pattern, replacement and regex flag recorded |
| Refactoring.NewExtractMethod | modules/refactoring/refactoring_module.py:132-159 | type EXTRACT_METHOD; name, parameters, return value and indentation recorded |
| Refactoring.NewReorderImports | modules/refactoring/refactoring_module.py:162-181 | raises ValueError iff `line_start != 1`; otherwise type REORDER_IMPORTS |
| Refactoring.NewInsertCode | modules/refactoring/refactoring_module.py:184-210 | type INSERT_CODE; code, indentation and placement recorded |
| Refactoring.NewDeleteCode | modules/refactoring/refactoring_module.py:213-231 | type DELETE_CODE; metadata unchanged |
| Refactoring.StrsOf | modules/refactoring/refactoring_module.py:156 | a list of strings reads back with its length |
| Refactoring.StrsOfStrList | modules/refactoring/refactoring_module.py:156 | the recorded parameter list reads back exactly |
| Refactoring.RenameRecords | modules/refactoring/refactoring_module.py:65-66 | the metadata records the rename's fields |
| Refactoring.TypeHintRecords | modules/refactoring/refactoring_module.py:95-99 | the metadata records the type hint's fields |
| Refactoring.ExtractRecords | modules/refactoring/refactoring_module.py:155-158 | the metadata records the extraction's fields |
| Refactoring.DeprecatedRecords | modules/refactoring/refactoring_module.py:126-128 | the metadata records the replacement's fields |
| Refactoring.InsertRecords | modules/refactoring/refactoring_module.py:207-209 | the metadata records the insertion's fields |
| Refactoring.DeleteReorderRecords | modules/refactoring/refactoring_module.py:176-181 | delete and reorder proposals record nothing extra |
| Refactoring.PassedTypeIgnored | modules/refactoring/refactoring_module.py:62 | the `proposal_type` passed in never matters, and the descriptions are never empty |

## Left out

- File persistence (JSON load and save of the queue, scheduler, history, monitor and configuration files) is I/O. Each write is a ghost snapshot of the list it would write; a read is a parameter saying what the file held.
- Time: `datetime.now()` and `time.time()` are integer parameters, and ISO time stamps are integers (`Stamp`/`ParseTime`). A string that `fromisoformat` would parse is not modelled.
- Tasks.TaskQueue.MarkCompleted, Tasks.TaskQueue.MarkFailed: the source passes each task dict itself and relies on Python aliasing. The model passes its index, so aliasing between queue entries is not captured.
- Tasks.StatsOf: a task whose status is unhashable (a list or dict) makes the source raise TypeError. The model counts it as unknown.
- `TaskQueue.load_tasks_from_file`, `safe_cleanup` and `preview_cleanup` are a file read and two delegations to the cleaner. They appear only through `Agent.TasksToLoad` and the cleaner's members.
- Handler bodies, `importlib`, and the agent instance are oracles (`Behaviour`, `importable`, `defines`, `agentPresent`). Handlers are assumed not to enqueue tasks while the queue drains.
- Dispatch.Decide: exception texts are the oracle's strings; `str(e)` formatting is not modelled.
- Cleaning.TaskCleaner.CleanSafe: the backup file copy is a ghost list of snapshots; its failure (only logged) is not modelled.
- Planner.SelfImprovementPlanner.FormSelfImprovementQueue: the ten tasks share one `now`, while the source reads `time.time()` for each task, so their insertion times may differ there.
- Planner.EvaluatePriority: the contract fixes the set of values and the bands 1.0 and 5.0. Which middle band (1.5 to 4.0) a text gets is fixed only by the definition's keyword order.
- Planner: the heap is a sequence with minimum extraction. The heap layout, and the order `heapq` breaks ties in, are not modelled. Priorities are `real`, not floating point.
- Agent: git is an abstract repository (current branch, each branch's commits, dirty flag, pushed branches) with a failure oracle. The git command line, GitPython and PyGithub are not part of this model.
- Agent: `DevAgent.__init__`'s module wiring, `_initialize_agent_modules`, `_create_documentation_dirs`, and `run_daemon`'s sleep and KeyboardInterrupt handling are left out. They are set-up, filesystem and timing code.
- Agent: the date formats in the branch name, commit messages and PR title are abstract `Clock` strings.
- modules/utils/gemini_client.py is not part of this model. Gemini answers are parameters (`Result<Value>`) and `json.loads` is a `decode` oracle.
- Planning: `generate_initial_plan`, `update_plan_from_context`, `assess_impact_and_complexity` and the three constant-reply handlers are Gemini prompts and fixed replies. `HandleTask` only names which of them is called. Prompt text and the processed-flag file are left out.
- Planning.ProcessMasterPlanFile: the log summary (`description[:70]`) is modelled only as the error it raises on a non-string description.
- Dependencies: `_extract_imports` (the `ast` walk) is an oracle from file to import list. The graph is a `map` plus the file order, which stands for Python's dict order.
- Dependencies.UniqueCycles: the signature `tuple(sorted(cycle))` is a multiset. Two cycles with equal sorted tuples are exactly those with equal multisets.
- SelfAnalysis: `_scan_codebase_for_improvements` (a filesystem walk) is a parameter.
- Config.ConfigManager.Set: in-place mutation of nested dicts shared with other references is not captured. The configuration is a value.
- JsonAnalysis: `repair_json` and `parse_json`'s repair path call `_fix_trailing_commas`, which the class does not define. They end in AttributeError and are not modelled; neither is `format_json`.
- BlockExtraction: `ast.parse` and the regular expressions are oracles. The parser gives the nodes in `ast.walk` order or a SyntaxError. Each header pattern gives its captured name or nothing.
- Generation: `is_valid_python` calls `ast.parse` and is not modelled.
- Handlers.HandlerRegistry.GetHandler: the KeyError's text, which lists the available handlers, is not modelled.
- JsonValue.Show: `str()` of a float, a list or a dict is rendered as the placeholder `<value>`. Python's float formatting and a dict's insertion order are not modelled.
- Dispatch.Decide: the no-handler message shows the task type through `JsonValue.Show`, so a float type gives the placeholder text.
- Dependencies.HandleTask: the unsupported-type message shows `analysis_type` through `JsonValue.Show`, so a float, list or dict type gives the placeholder text.
- SelfAnalysis.HandleTask: the unsupported-type message has the same placeholder for a float, list or dict `analysis_type`.
- Planning.HandleTask: an error message that names the task type has the same placeholder for a float, list or dict type.
- Dependencies.TargetFiles: a non-empty dict of target files raises in the model. Python iterates its keys in insertion order, which the model does not keep. A non-string item in the list raises a TypeError whose text is not Python's exact wording.
- JsonAnalysis.Validate: the order in which `properties` is walked is a `KeyOrder` parameter standing for dict insertion order. `ValidateProperty` holds for orders that list every key.
- Text.Lower: only ASCII letters are folded. Python's `str.lower()` also folds other letters, such as U+212A KELVIN SIGN to `k`; the keyword lists compared against are all ASCII.
- Refactoring: each `__post_init__` writes its fields into the `metadata` dict the caller passed, so the caller's dict gains them and a `parameters` list stays shared. The model returns a fresh map, and that aliasing is not captured.
- Planning.KeyModulePlan: descriptions are compared structurally. Python's set treats `True`, `1` and `1.0` as one description; the model treats them as three.

## Findings

| source | as written | input that shows it | evidently intended | confidence | as-written member | corrected member |
|---|---|---|---|---|---|---|
| modules/core/task_queue.py:102-106 | `stats[status] += 1` also hits the `total` key when a task's status is the string "total" | one task `{"status": "total"}`: `total` is 2 and that task is counted nowhere else | every task is counted once, so the per-status counts sum to `total` | high, not executed | Tasks.StatsAsWrittenMiscounts | Tasks.StatsPartition |
| modules/analysis/code_block_extractor.py:53-61 | the `except SyntaxError` fallback to the regex extractor is dead, because `_extract_blocks_using_ast` catches every exception itself (line 126) | a `.py` path whose code does not parse gives `{"status": "error"}` instead of regex blocks | a `.py` file with a syntax error falls back to the regex extractor | high, not executed | BlockExtraction.SyntaxErrorNotRecovered | BlockExtraction.ExtractionDiffersOnlyOnSyntaxError |
| modules/utils/json_analyzer.py:103-115 | the appended closing quote is escaped when the input ends with a backslash | `"\` becomes `"\"`, which still has one unescaped quote | the repaired string has its quotes balanced | medium, not executed | JsonAnalysis.DanglingBackslashStaysOpen | JsonAnalysis.CloseQuotes |
