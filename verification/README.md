# A verified model of Batsim's event loop, task execution and bookkeeping

Batsim simulates clusters: jobs are submitted, a scheduler (the decision process) decides about them over a
protocol, and parallel tasks run on simulated machines. This project models the parts of Batsim that decide
what happens to jobs, tasks and machines, and proves what the code and its documentation promise about them.
The platform simulator is replaced by a clock and by free choices: which submitted job completes next, how long
a parallel task takes, in which order actors run. Times and amounts are exact reals.

| files | what they model |
|---|---|
| `IntervalSets`, `RowMajor`, `Sums`, `Options` | machine sets, row-major positions, totals, optional values |
| `TaskMatrices`, `JobIoMerge`, `MergeTheorems`, `TaskProfiles` | the matrices of parallel tasks, the merge of a job's task with its IO task, and both together from the profiles to the merged totals |
| `WorkflowSteps`, `WorkflowSafety`, `WorkflowDepth`, `WorkflowTheorems`, `WorkflowRepeatedEdges`, `WorkflowOrder`, `WorkflowFates`, `Workflows`, `WorkflowWitnesses` | the workflow submitter as a step system, its properties over all runs, what rejected and killed jobs do to it, the imperative submitter that follows it, and a workflow it does not serve |
| `TaskPrograms`, `TaskPaths`, `TaskTrees`, `TaskExecution` | composed profiles as flat programs, and the task tree that executes them |
| `ServerSteps`, `ServerInvariant`, `ServerActors`, `ServerReports`, `ServerKills`, `ServerHandlers`, `ServerLoop`, `ServerTheorems`, `ServerEvents`, `ServerExits`, `ServerProgress`, `ServerWitnesses`, `ServerProcess` | the server, the job actors, killers, waiters and submitters as a step system, its invariant and its properties over all runs, runs in which its promises fail, and the imperative server |
| `NameTokens`, `NameOrder`, `NameDirections` | the natural order of machine names and the comparator |
| `Switches`, `PstateRequests` | power-state switch requests and their acknowledgements, and what becomes of each machine of a request |
| `MachineStates`, `Machines` | states, counters and job sets of machines |
| `Profiles` | profiles held by counted pointers, and what the clean-ups drop |
| `SwfReplay` | the allocation replay of the SWF conversion tool |
| `Batching` | the static submitters of jobs and external events |

`dafny verify dfyconfig.toml` checks everything.

## How the pieces fit

- Code that changes things in place is modelled by classes and methods whose `ensures` give the whole new state
  through a specification function; the properties are lemmas about these functions, and about all runs of the
  steps they describe.
- The merge: `JobIoMerge.Merge` runs the double loop with its five cursors and equals `Rows` and `Loads`;
  `MergeTheorems` says what these mean for every pair of machines and in total, and `TaskProfiles.MergeProfiles`
  goes from the two profiles to the merged totals.
- The workflow submitter: `Workflows.SubmitterProcess` returns a run of the step system that is over;
  `WorkflowTheorems` and `WorkflowRepeatedEdges` hold for all runs.
- The task tree: `TaskExecution.ExecuteTask` walks the tree with index arithmetic and ends as the interpretation
  of the flat program does; at the start of every leaf it logs the indices a kill would then follow.
- The server: `ServerProcess.Server.ServeOne` is the body of the loop and equals `ServerSteps.Serve`; `ServerLoop.StepInv`
  shows that every step of every actor keeps the invariant; `ServerTheorems` draws the conclusions.

## Assumptions

- Sending to the server's mailbox blocks until the server takes the message (src/ipp.cpp:12-30), so each actor has
  at most one message there, and the server takes messages in the order they were put.
- A job's actor starts in the step in which the server handles EXECUTE_JOB. A killer runs before the server takes
  another message, and jobs whose running task was cancelled end before the server hears that the killing is done
  (`ServerSteps.MayServe`).
- Profile return codes are not negative, and delays are positive (src/profiles.cpp:314, 585); -1 and -2 are the
  executor's own codes. Composed profiles are not circular, and their parts are linked.
- A static submitter submits jobs of its own workload, each once (`Batching` shows that the list it submits has each
  job once).
- The start of an on or off switch process happens in the step that requests it.

## Where the code does less than it seems to promise

- `Workflow::add_edge` looks for the parent among the parent's own children, so an edge declared twice is stored
  twice among the children, and the child is then released too early or several times.
  `WorkflowRepeatedEdges.ServedIffEdgesOnce`: without a cap and over an acyclic graph, a run that ends serves
  every task once and in order if and only if each edge was declared once; `WorkflowWitnesses.RepeatedEdge` runs one
  that was declared twice. `Workflows.AddEdgeKeepsAgreement`: a loop
  of a task to itself also hides its later edges from the parent's side.
- The total-amount profile keeps the amount of computation for any number of hosts, but not that of communication:
  `TaskMatrices.TotalAmountTraffic`. The documentation describes the amounts per node in the same way as the code.
- The name comparator converts a difference of two longs to an int, and checks the overflow of the first number
  twice and that of the second never. `NameOrder.IntendedIffComparable` says for which names it follows the
  intended order, `NameOrder.LargeNumbersMisordered` gives names that compare in a circle.
- An IO profile without traffic has an empty matrix, and the merge reads beyond its end as soon as there is an IO
  machine; only the job's matrix is tested for being empty (src/task_execution.cpp:571-620). `JobIoMerge.Merge` stays in
  bounds if and only if there is no IO machine or the IO matrix is not empty, and `TaskProfiles.MergeProfiles` says for
  which profiles that is: for a homogeneous IO profile exactly if its communication is positive.
  `TaskProfiles.QuietIo` is such an input.
- The task of a staging profile has two entries, and the check of who may compute reads one entry for each machine of
  the job's allocation. `TaskProfiles.PrepareTask`: it stays in bounds if and only if there are at most two machines;
  `TaskProfiles.WideStaging` is an input with three. The documentation (docs/input-workload.rst:231-241) does not
  restrict the allocation.
- The protocol reader compares the shapes of a job's profile and its IO profile only at the root, and only if the IO
  profile is a sequence. `TaskTrees.InitializeSequentialTasks` takes a wrong object for a sequence, or looks beyond its
  end, if and only if the shapes differ somewhere; `TaskTrees.RootCheckMisses` gives two pairs that pass the check, and
  `TaskTrees.RootCheckEnough` says when it is enough.
- In a workflow only the message of a completed job makes the server call the submitter back (src/server.cpp:246-254);
  for a rejected or killed job it does not. `WorkflowFates.EndsIffAllReported`: once the submitter cannot go on, its
  loop is over if and only if no task's job was rejected or killed; otherwise it waits for ever.
- A task that is released again because of a repeated edge stops the simulation when its second job is submitted, as its
  profile name is taken (src/job_submitter.cpp:302-304); the model lets the submitter go on, and without a cap the
  workflow is not served either way. With single edges it cannot happen: a task is submitted at most once
  (`WorkflowTheorems.AlwaysSafe`).
- The server accepts KILL_JOB for a job that was rejected and is still in memory; the killer then stops the
  simulation: `ServerTheorems.RejectedKillAccepted`, and `ServerTheorems.ChecksHold` shows it is the only failing
  check that is not about a request. `ServerWitnesses.RejectedReached` is a run that gets there.
- The documentation (docs/protocol.rst:584-586) says that JOB_KILLED names the jobs of the request. The code leaves out
  those whose kill was requested before, and does not answer at all if none is left. `ServerTheorems.KillAnswer`: there
  will be an answer if and only if the kill of some job of the request was not requested before; and
  `ServerTheorems.KillAcknowledged`: the answer names the jobs of the request if and only if the request has no duplicate
  and none of its jobs was requested before. `ServerTheorems.KillAskedAgain` gives requests for which both fail, and
  `ServerWitnesses.KillRequestedReached` a run that gets there.
- A CALL_ME_LATER sent after SIMULATION_ENDS makes the check after the loop fail, and nothing else does for the waiters:
  `ServerTheorems.WaitersAtExit`; `ServerWitnesses.LateWaiterReached` is such a run. The other checks after the
  loop fail if and only if a switch, a kill, an execution or a registration requested after SIMULATION_ENDS is not
  finished: `ServerExits.SwitchesAtExit`, `KillersAtExit`, `RunningAtExit` and `CompletedAtExit`.
- A SCHEDULER_RECV profile names its continuations and holds no pointer to them, so the clean-up of unused profiles can
  drop them, and looking them up then fails at run time. `Profiles.Profiles.CleanUpThenFind`: a continuation is found if
  and only if a chain of parts leads to it from a job's profile, or from a composed profile that the map does not list
  before its own part on the chain. One that nobody holds is lost in every order of the map;
  `Profiles.LostContinuation` is such a workload.
- A machine that is in transition when a request to change its power state is taken is passed over with an error
  message, but the request waits for it (src/server.cpp:437-528; docs/protocol.rst:909-910 promises an acknowledgement).
  `PstateRequests.AcknowledgedWhenQuiet` and `RequestAcknowledged` say which requests are acknowledged in the end: without
  other requests for the same machines and state, exactly those of which no machine was passed over.
  `PstateRequests.PassedOverForEver` is a request that is never acknowledged. And
  `PstateRequests.PowerStates.SwitchedTaken`: the server stops if a machine left its new state again before the report
  of the switch was handled.
- The counter of idle machines leaves out the storage machines, from the start on: `MachineStates.Counts`.

## Model

| member | source | states |
|---|---|---|
| JobIoMerge.NextLoad | src/task_execution.cpp:540-570 | one turn of the outer loop reads each computation vector at most once, at its cursor, exactly when the machine belongs to that task, and sets the two flags accordingly |
| JobIoMerge.NextEntry | src/task_execution.cpp:571-622 | one turn of the inner loop: which of the two matrices is read, that exactly the read cursors advance, and that the only read out of bounds is that of an empty IO matrix; an empty job matrix counts as zeros |
| JobIoMerge.FillRow | src/task_execution.cpp:571-623 | a row of the merged matrix is filled, and the row cursors go from the start of one row to the start of the next one in each matrix, in bounds if and only if the row's machine is not an IO machine or the IO matrix is not empty |
| JobIoMerge.FillAll | src/task_execution.cpp:543-623 | the double loop fills both arrays completely and reads each vector and matrix to its end, in bounds if and only if there is no IO machine or the IO matrix is not empty |
| JobIoMerge.Merge | src/task_execution.cpp:508-624 | the merged allocation is the union, the arrays are the specified ones, and the cursors end exactly at the end of what they read; all this if and only if there is no IO machine or the IO matrix is not empty |
| MergeTheorems.MergedEntry | src/task_execution.cpp:543-623 | entry (c, r) is the job's entry at its ranks if both machines are the job's, plus the IO entry at its ranks if both are the IO task's, each position being in bounds |
| MergeTheorems.MergedTraffic | src/task_execution.cpp:508-624 | for any two machines at all, the merged task moves the bytes that the two tasks move between them |
| MergeTheorems.MergedLoad | src/task_execution.cpp:543-570 | each machine computes what both tasks make it compute |
| MergeTheorems.ComputationConserved | src/task_execution.cpp:543-570 | the merged computation adds up to the job's plus the IO task's |
| MergeTheorems.CommunicationConserved | src/task_execution.cpp:571-623 | the merged communication adds up to the job's plus the IO task's |
| TaskMatrices.GenerateParallelHomogeneous | src/task_execution.cpp:55-99 | every host gets the same amount, and every pair of distinct hosts exchanges com bytes |
| TaskMatrices.GenerateParallelHomogeneousTotalAmount | src/task_execution.cpp:110-150 | the computation adds up to exactly cpu for every positive number of hosts |
| TaskMatrices.AllPairsEntries | src/task_execution.cpp:77-94 | the matrix of a homogeneous task has com everywhere but on its diagonal |
| TaskMatrices.AllPairsTotal | src/task_execution.cpp:77-94 | which makes n * (n - 1) * com bytes |
| TaskMatrices.TotalAmountTraffic | src/task_execution.cpp:117-149 | the total-amount profile moves (n - 1) * com bytes in all, which is com exactly for two hosts |
| TaskMatrices.GenerateParallelHomogeneousWithPfs | src/task_execution.cpp:166-251 | the storage host is the one of the label, or the only one there is if no label is mapped, and is added last; which mappings are refused; nothing is computed, and there is traffic only if something is read or written |
| TaskMatrices.StorageTraffic | src/task_execution.cpp:221-245 | the task of h compute hosts moves h * (read + write) bytes |
| TaskMatrices.StorageEndpoints | src/task_execution.cpp:221-245 | all traffic is to or from the last host: written bytes go to it, read bytes come from it |
| TaskMatrices.GenerateDataStagingTask | src/task_execution.cpp:261-333 | exactly the storage hosts of the two labels take part, whatever the allocation; which mappings are refused; nothing is computed |
| TaskMatrices.StagingTraffic | src/task_execution.cpp:261-333 | staging moves its bytes once, from the first host to the last |
| TaskProfiles.GenerateMatrices | src/task_execution.cpp:382-430 | for each of the five parallel profiles: which hosts take part, what each computes, every entry of the matrix and both totals, in terms of the profile's own amounts; when the profile is refused, and when there is no matrix |
| TaskProfiles.CheckPermission | src/task_execution.cpp:441-463 | refused exactly if a machine that is no compute node has something to compute, and read out of bounds exactly if the allocation has more machines than there are entries |
| TaskProfiles.PrepareTask | src/task_execution.cpp:465-488 | without an IO profile: when the task is refused by its generator, when by the permissions, and when the check reads out of bounds (a staging task on more than two machines) |
| TaskProfiles.MergeProfiles | src/task_execution.cpp:465-634 | how it ends, said by the two profiles: refused by a generator, by the permissions of the job's machines alone or of all machines with both loads, read out of bounds for an IO profile without traffic, or done; then each machine computes both its loads, each pair of machines exchanges what both profiles say, and the totals are the sums |
| TaskProfiles.QuietIo | src/task_execution.cpp:571-620 | an IO profile without traffic that is read out of bounds |
| TaskProfiles.WideStaging | src/task_execution.cpp:441-463 | a staging task on three machines that is read out of bounds |
| Workflows.Workflow.AddTask | src/workflow.cpp:117-120 | a new task is filed and everything else stays |
| Workflows.Workflow.AddEdge | src/workflow.cpp:129-149 | the tasks' parents and children change as `WithEdge` says, including the wrong search for the parent |
| Workflows.EdgeAdded | src/workflow.cpp:129-149 | after add_edge a parent is known to the child exactly if it was or is the new one; a child to the parent likewise, unless the parent is its own child |
| Workflows.AddEdgeKeepsAgreement | src/workflow.cpp:140-148 | the two sides of all edges keep agreeing if and only if the parent is not its own child or the edge was there |
| Workflows.AddEdgeKeepsEdgesOnce | src/workflow.cpp:140-148 | every edge stays single if and only if the edge was not there before, or nothing is stored because the parent is its own child |
| Workflows.Workflow.GetSourceTasks | src/workflow.cpp:152-163 | exactly the tasks without parents, each once |
| Workflows.Workflow.GetMaximumDepth | src/workflow.cpp:165-190 | -1 without sinks, else the depth of a sink that no sink exceeds |
| Workflows.TellChildren | src/job_submitter.cpp:239-258 | a completion counts and deepens all children, then releases, in order, those whose parents are all counted |
| Workflows.SubmitReady | src/job_submitter.cpp:216-229 | the inner loop submits until nothing is ready or the cap is reached, keeping the process' variables in step with the state |
| Workflows.CompleteOne | src/job_submitter.cpp:231-261 | any submitted job may complete next; the variables follow the completion step, and the work left gets smaller |
| Workflows.SubmitterProcess | src/job_submitter.cpp:202-266 | the whole process terminates, with a run of the step system that is over, the tasks showing its counters and depths, and its maximum depth |
| WorkflowTheorems.AlwaysSafe | src/job_submitter.cpp:202-263 | in every state of every run, a task is submitted at most once and not before all its parents completed, the counter equals the submitted tasks and respects the cap |
| WorkflowTheorems.WaitsOnlyWhenItMust | src/job_submitter.cpp:214-236 | the submitter waits for a completion only if no task is ready or the cap is reached |
| WorkflowTheorems.EventsAreFew | src/job_submitter.cpp:214-263 | a run has at most one submission and one completion per task |
| WorkflowTheorems.RunsAreShort | src/job_submitter.cpp:214-263 | and so at most twice as many steps as there are tasks: every run ends |
| WorkflowTheorems.ParentCompletesFirst | src/job_submitter.cpp:254-258 | in a served workflow each parent completes before its child does |
| WorkflowOrder.FirstReleasedFirst | src/job_submitter.cpp:216-229 | in every run, tasks are submitted in the order in which they became ready |
| WorkflowOrder.SubmittedInOrder | src/job_submitter.cpp:216-229 | at the end, what was ready at some moment was submitted in that order, one after the other |
| WorkflowOrder.CompletionAppends | src/job_submitter.cpp:250-257 | the tasks that a completion releases become ready in the order of the children list |
| WorkflowOrder.JobNumbers | src/job_submitter.cpp:288-289 | the k-th submitted task has job number k |
| WorkflowTheorems.ServesAllTasksIffAcyclic | src/job_submitter.cpp:202-263 | with single edges, a run that is over has served all tasks, once and in order, if and only if the graph is acyclic, whatever the completion order |
| WorkflowTheorems.FinalDepth | src/job_submitter.cpp:29-34 | at the end, a task's depth is the length of the longest path from a source to it |
| WorkflowTheorems.FinalMaximumDepth | src/workflow.cpp:178-190 | and get_maximum_depth is the length of the longest path of the whole graph |
| WorkflowDepth.MaximumDepthIsLongest | src/workflow.cpp:178-190 | the deepest sink is as deep as the longest path is long |
| WorkflowRepeatedEdges.ServedIffEdgesOnce | src/workflow.cpp:140-148 | without a cap, over an acyclic graph, a run that is over served every task once and in order if and only if no edge is stored twice |
| WorkflowWitnesses.RepeatedEdge | src/workflow.cpp:140-148 | two tasks with one edge declared twice: the loop ends and not every task was served |
| WorkflowFates.EndsIffAllReported | src/server.cpp:246-254 | when the submitter cannot go on, its loop is over if and only if no task's job was rejected or killed |
| WorkflowSafety.RunInv | src/job_submitter.cpp:214-263 | what every step keeps: where each task stands, what was released and why, and the counts of completed parents |
| WorkflowDepth.RunDeep | src/job_submitter.cpp:245-249 | in every state, the depth of a task is determined by the depths of its completed parents |
| TaskTrees.Actor.DelayTask | src/jobs_execution.cpp:382-404 | do_delay_task changes clock and budget as `Sleep` says |
| TaskTrees.Actor.ParallelTask | src/task_execution.cpp:645-690 | the wait for a parallel task, with and without walltime, ending, timing out or being cancelled |
| TaskTrees.InitializeSequentialTasks | src/jobs_execution.cpp:413-452 | the tree has a sub-task for every repetition of every part, each with the right profile and IO profile, and is all new; this works if and only if the IO profile has the job's shape wherever that has parts |
| TaskTrees.RootCheckEnough | src/protocol.cpp:1163-1185 | for a sequence without nested sequences the check of the protocol reader is enough if and only if the IO profile is a sequence |
| TaskTrees.RootCheckMisses | src/protocol.cpp:1163-1185 | a sequence with an IO profile that is none, and a nested one, pass the check and do not fit |
| TaskTrees.IoOfPart | src/jobs_execution.cpp:428-441 | in every repetition part i runs beside part i of the IO profile |
| TaskPaths.IndexInRange | src/jobs_execution.cpp:133-134 | iteration * length + index always names an existing sub-task, and the one of that part |
| TaskPaths.FlatSequence | src/jobs_execution.cpp:126-156 | the repeated parts one after the other are the sub-tasks in index order |
| TaskPaths.LeafPathsAreLeaves | src/jobs_execution.cpp:413-452 | the listed paths are exactly those that lead to a leaf with every index in bounds |
| TaskPaths.LeafPathsInOrder | src/jobs_execution.cpp:126-152 | leaves are listed in tree order, and each once |
| TaskPrograms.InterpretConcat | src/jobs_execution.cpp:143-149 | a sequence stops at its first failing part |
| TaskPrograms.BudgetKept | src/jobs_execution.cpp:255-267 | over any part of any task: elapsed plus remaining time stays the same, -1 comes exactly at the end of the walltime, and never without one |
| TaskPrograms.KilledIffCancelled | src/task_execution.cpp:651-663 | a program ends with -2 if and only if the platform cancelled the parallel task that was started last |
| TaskPrograms.WalltimeIffTimedOut | src/task_execution.cpp:664-685 | it ends with -1 if and only if its last leaf did not end before the walltime: the platform says so, or a sleep is not shorter than what is left |
| TaskPrograms.ElseFirstCode | src/jobs_execution.cpp:112-156 | otherwise it ends with the first code in the program that is not zero |
| TaskPrograms.FlatCode | src/jobs_execution.cpp:126-156 | which is that of the first part with one, in order, whatever the repetitions, else the sequence's own |
| TaskPrograms.StartsInTime | src/jobs_execution.cpp:382-404 | leaves follow each other without a gap, each takes the time it asks for or the platform says, and is started with the walltime that is left |
| TaskPrograms.DelayJob | src/jobs_execution.cpp:382-404 | a job of delays returns 0 after their sum, repetitions counted, if that is less than the walltime, else -1 after exactly the walltime |
| TaskExecution.StartLeaf | src/jobs_execution.cpp:116-125 | when a leaf starts, the current indices from the root lead to it, and a kill would cancel it exactly if it is a parallel task |
| TaskExecution.ExecuteLeaf | src/jobs_execution.cpp:116-125 | a leaf ends as `RunLeaf` says, and is logged by the indices that led to it |
| TaskExecution.ExecuteTask | src/jobs_execution.cpp:104-156 | executing the tree ends with the code and clock of the flat program, and the leaves that were started are exactly its first ones in tree order |
| TaskExecution.JobBudget | src/jobs_execution.cpp:382-404 | after any number of steps of a job, elapsed plus remaining time is its walltime |
| TaskExecution.ExecuteJob | src/jobs_execution.cpp:454-600 | it works if and only if the IO profile fits; then the job is killed, and the server not told, if and only if its last parallel task was cancelled, it reaches its walltime if and only if its last leaf did not end before, and otherwise it succeeds if and only if no part of its profile has a return code; it never outlives its walltime |
| TaskTrees.ChainReaches | src/jobs_execution.cpp:133-136 | while a leaf runs, the chain of current indices is the path to it |
| TaskTrees.LeafNamed | src/jobs_execution.cpp:417-446 | the leaf at a path has the profile and the IO profile at that path |
| TaskTrees.BatTask.CancelPtask | src/jobs_execution.cpp:638-655 | cancelling touches the running leaf only, and succeeds exactly if it has a ptask |
| TaskTrees.BatTask.ComputeTasksProgress | src/jobs.cpp:137-191 | only the running leaf's progress changes, to its share of work or time; it fails exactly for a delay that has not started |
| ServerProcess.Server.constructor | src/server.cpp:25-90 | the server starts in an initial state, with its first call of the scheduler under way |
| ServerProcess.Server.OnJobSubmitted | src/server.cpp:277-328 | every job of the message becomes submitted, is counted, and is told to the scheduler |
| ServerProcess.Server.ReportJob | src/server.cpp:256-274 | counters, event, trace and deletion queue of a finished job, and the checks on the counters |
| ServerProcess.Server.KillingDoneTaken | src/server.cpp:654-708 | only the jobs really killed are reported, then the killing is acknowledged |
| ServerProcess.Server.ExecuteJobTaken | src/server.cpp:972-987 | a submitted job starts running; any other is refused |
| ServerProcess.Server.RejectJobTaken | src/server.cpp:888-913 | a submitted job is rejected, counted completed, traced and queued; any other is refused |
| ServerProcess.Server.CollectKills | src/server.cpp:915-942 | jobs not killed before are marked and collected, others dropped, and a wrong job refuses the request |
| ServerProcess.Server.KillJobsTaken | src/server.cpp:915-953 | a killer starts if a job is left to kill |
| ServerProcess.Server.DeleteQueuedJobs | src/workload.cpp:247-254 | the queue is erased from memory, failing if a job is not there any more |
| ServerProcess.Server.CallSchedulerIfNeeded | src/server.cpp:107-138 | the scheduler is called with the collected events, or told the end |
| ServerProcess.Server.HandleMessage | src/server.cpp:46-76 | every message is handled as the step system says |
| ServerProcess.Server.ServeOne | src/server.cpp:93-140 | one turn of the loop is one step of the server |
| ServerLoop.StepInv | src/server.cpp:93-140 | every step of every actor keeps the invariant, and never fails a check of the server's own data |
| ServerLoop.HandleInv | src/server.cpp:172-953 | every handler keeps the invariant; only the scheduler's requests are refused |
| ServerReports.BooksReport | src/server.cpp:256-262 | the checks of the running and completed counters hold when a started, unreported job is reported |
| ServerKills.KilledReported | src/server.cpp:672-695 | over all jobs of a killer, no check fails and each of them is reported in the end |
| ServerTheorems.RunInv | src/server.cpp:93-140 | the invariant holds in every state of every run |
| ServerTheorems.ChecksHold | src/server.cpp:256-262 | in every reachable state, no consistency check fails in the next step, and a killer fails if and only if it looks at a rejected job |
| ServerTheorems.RejectedKillAccepted | src/jobs_execution.cpp:671-674 | a rejected job in memory can be asked to be killed, and then the killer fails |
| ServerWitnesses.RejectedReached | src/server.cpp:888-913 | a run that reaches a rejected job in memory whose kill was not requested |
| ServerWitnesses.KillRequestedReached | src/server.cpp:915-953 | a run that reaches a job in memory whose kill was requested |
| ServerTheorems.CountersAgree | src/server.cpp:240-275 | nb_running_jobs is the number of running jobs plus that of finished, unreported ones; each job is counted completed, traced and queued for deletion at most once |
| ServerTheorems.WrittenOnceWhenQuiet | src/export.cpp:1237-1298 | with nothing in flight, the trace holds exactly the submitted jobs that are complete |
| ServerTheorems.CallsAreAnswered | src/server.cpp:107-128 | the scheduler is never called while a call is unanswered |
| ServerTheorems.SchedulerHears | docs/protocol.rst:596-599 | all events are told once and in order; a job's completion comes once, and before the acknowledgement of its kill; exactly the traced jobs that were not rejected are told completed |
| ServerEvents.HandledIsTold | src/server.cpp:172-328 | exactly what each message makes the server tell, in order, for every message and state |
| ServerEvents.SubmittedIffTold | src/server.cpp:319-323 | in every run, JOB_SUBMITTED is told of exactly the jobs that a submitter submitted, or that were registered if registrations are acknowledged |
| ServerEvents.CompletionsTellTruth | src/server.cpp:265-269 | in every reachable state, the state told with a JOB_COMPLETED is the job's state, and never that of a rejected job |
| ServerTheorems.KillAnswer | src/server.cpp:915-953 | a killer is started if and only if the kill of some job was not requested before; it gets exactly those jobs, each once, which are those of the request if and only if nothing was left out |
| ServerTheorems.KillAcknowledged | docs/protocol.rst:584-586 | in every run, the JOB_KILLED that answers a request names the jobs of the request if and only if the request has no duplicate and none of its jobs was requested before; in any case exactly the jobs that were not |
| ServerTheorems.KillerKeepsJobs | src/server.cpp:944-952 | no step changes the jobs of a killer or uses its id again |
| ServerTheorems.KillAskedAgain | src/server.cpp:925-931 | a second request for a job gets no answer, and a job named twice is acknowledged once |
| ServerTheorems.EndAnnouncedOnce | src/server.cpp:124-137 | SIMULATION_ENDS is told at most once, and only when everything is finished and at rest |
| ServerEvents.EndAfterAll | src/server.cpp:1095-1105 | when it is told, all submitters have finished, the registration of jobs is over if there is one, every submitted job is complete, and nothing runs, switches, waits or kills |
| ServerEvents.RegistrationFlag | src/server.cpp:710-723 | in every run, the registration is over if and only if END_REGISTRATION was taken and no CONTINUE_REGISTRATION since |
| ServerProgress.NeverSleeps | src/server.cpp:107-138 | in every reachable state: with an empty mailbox and no call under way, everything was told, and the end was announced if the simulation is finished |
| ServerProgress.CalledWhenIdle | src/server.cpp:107-123 | the scheduler is called only when no message is left, with all that was collected, and then all jobs queued for it are erased from memory |
| ServerProgress.OnlySchedulerBlocks | src/server.cpp:93-140 | if no actor can do anything before the loop is over, the scheduler never decided about a submitted job, or never ended the registration |
| ServerTheorems.CleanExit | src/server.cpp:142-156 | if the scheduler answers the end with no request, all checks after the loop hold |
| ServerTheorems.ExitChecksExactly | src/server.cpp:142-156 | after the loop the first three checks always hold, and each of the others if and only if no actor, running job or unfinished job of its kind is left |
| ServerExits.SwitchesAtExit | src/server.cpp:151 | no switch is left after the loop if and only if the end of each switch process requested after the end of the simulation was handled |
| ServerExits.KillersAtExit | src/server.cpp:152 | no killer is left if and only if the end of each killer requested after the end of the simulation was handled |
| ServerExits.RunningAtExit | src/server.cpp:150 | no job is left running if and only if each job whose execution was requested after the end of the simulation is in the trace |
| ServerExits.CompletedAtExit | src/server.cpp:156 | all submitted jobs are complete if and only if each job registered after the end of the simulation is in the trace |
| ServerTheorems.WaitersAtExit | src/jobs_execution.cpp:626-635 | the check that no waiter is left holds after the loop if and only if no CALL_ME_LATER came after the end was announced |
| ServerWitnesses.LateWaiterReached | src/jobs_execution.cpp:626-635 | a run that leaves the loop with a waiter |
| NameOrder.ReadNumber | src/machines.cpp:992-996 | strtol returns the value of the maximal run of digits, saturated, and where it ends |
| NameOrder.StringNumericComparator | src/machines.cpp:973-1041 | the two-pointer loop compares the token sequences of the names, with saturation, truncation and the one overflow check that works |
| NameOrder.IntendedIffComparable | src/machines.cpp:998-1006 | it gives the intended sign if and only if the numbers up to the first difference are comparable in machine integers |
| NameOrder.SmallAreComparable | src/machines.cpp:998-1006 | which holds if all numbers are below 2^31 |
| NameOrder.LargeNumbersMisordered | src/machines.cpp:1005 | larger numbers can compare in a circle, or equal though they differ |
| NameTokens.CompareAntisymmetric | src/machines.cpp:973-1041 | swapping the names flips the sign |
| NameTokens.CompareTransitive | src/machines.cpp:973-1041 | the order is transitive |
| NameTokens.EqualUpToZeros | src/machines.cpp:973-1041 | two names compare equal exactly if they agree up to leading zeros |
| NameDirections.CharactersDecide | src/machines.cpp:1011-1017 | of two names that differ first in a character, the one with the smaller character is less |
| NameDirections.NumbersDecide | src/machines.cpp:988-1006 | of two names that differ first in a number, the one with the smaller number is less |
| NameDirections.PrefixFirst | src/machines.cpp:1025-1034 | a name comes before its continuations |
| NameDirections.ZerosByCharacters | src/machines.cpp:1043-1054 | names that agree up to leading zeros are ordered by their first different character |
| NameOrder.LessIsStrict | src/machines.cpp:1043-1054 | with the tie-break, the order is asymmetric and irreflexive |
| NameOrder.LessIsTotal | src/machines.cpp:1043-1054 | and of two different names one is less |
| NameOrder.LessIsTransitive | src/machines.cpp:1043-1054 | and the order is transitive: a strict total order |
| NameOrder.MachineComparatorName | src/machines.cpp:1043-1054 | the comparator decides this order for comparable names, in particular for numbers below 2^31 |
| Switches.CurrentSwitches.AddSwitch | src/pstate.cpp:86-103 | the request is open for all its machines |
| Switches.CurrentSwitches.MarkSwitchAsDone | src/pstate.cpp:105-154 | a report is refused exactly if no request waits for it; the k-th report of a machine answers the k-th request that asked it; the request is acknowledged, with all its machines, exactly at the last report it waits for |
| Switches.MarkedOpen | src/pstate.cpp:114-150 | marking the first waiting entry is right for overlapping requests, too |
| Switches.Answered | src/pstate.cpp:118-146 | each report keeps the map correct: only open requests, no empty list, every other request acknowledged once |
| Switches.AllArrived | src/pstate.cpp:124-131 | when all reports have arrived, the map is empty and every request was acknowledged |
| PstateRequests.PowerStates.PstateModificationTaken | src/server.cpp:426-530 | which machines switch at once, which start a process and which are passed over, what is counted, and that it fails exactly if a sleeping machine is not asked to compute |
| PstateRequests.WhatBecomes | src/server.cpp:470-529 | between computing and sleeping a process starts, between computation states the switch is made at once, and in or to a transition state the machine is passed over |
| PstateRequests.OthersStay | src/server.cpp:463-530 | no other machine and no other power state is touched |
| PstateRequests.PowerStates.SwitchedTaken | src/server.cpp:626-652 | it fails exactly if the machine is not in the reported state any more; otherwise somebody waits for the report |
| PstateRequests.AcknowledgedWhenQuiet | docs/protocol.rst:909-910 | when all processes ended and were handled: a request is acknowledged if and only if each of its machines was asked for that state later at least as often as it was passed over |
| PstateRequests.AckedIffAnswered | src/pstate.cpp:118-146 | at every moment, a request is acknowledged if and only if each of its machines reported as often as it was asked up to this request |
| PstateRequests.RequestAcknowledged | docs/protocol.rst:909-910 | so a request without rivals is acknowledged if and only if none of its machines was passed over when it was taken |
| PstateRequests.PassedOverForEver | src/server.cpp:525-528 | a request that is never acknowledged |
| PstateRequests.WokenUp | src/server.cpp:508-524 | a sleeping machine that is asked to compute is woken up, and the request acknowledged |
| Machines.Machines.UpdateMachineState | src/machines.cpp:959-971 | the time since the last change is credited to the old state and to no other, and the counters stay the recount |
| MachineStates.CountsChanged | src/machines.cpp:731-735 | moving one machine moves the counters with it, storage machines being left out among the idle ones |
| MachineStates.EachKeeps | src/machines.cpp:742-813 | starts and ends of jobs and availability events keep all machine invariants |
| MachineStates.WhatStarts | src/machines.cpp:742-773 | jobs, state and times of every machine when a job starts |
| MachineStates.WhatEnds | src/machines.cpp:776-813 | jobs, state and times of every machine when a job ends |
| MachineStates.WhatEvents | src/server.cpp:331-391 | jobs, state and times of every machine when machines are lost or come back |
| Machines.Machines.ExecuteJob | src/server.cpp:989-1032 | a job starts exactly if the sharing, state and power-state checks pass on all its machines; then these compute it, and nothing else changes |
| Machines.Machines.EndJob | src/machines.cpp:776-813 | the checks at the end of a running job never fail; a machine that lost its last job is idle unless it is unavailable, all others keep their state |
| Machines.Machines.LoseMachines | src/server.cpp:331-356 | the machines become unavailable one by one, up to the first that already was, and keep their jobs |
| Machines.Machines.RegainMachines | src/server.cpp:359-391 | the machines come back one by one, up to the first that was not unavailable: computing if they have jobs, else idle |
| Machines.Machines.StartSwitchOff | src/server.cpp:496-505 | a switch-off starts exactly if no job is on the machine, which then is on its way to sleep |
| Machines.Machines.StartSwitchOn | src/server.cpp:512-525 | a sleeping machine has no job, so its process' check holds; it then is on its way to compute |
| Machines.Machines.EndSwitch | src/pstate.cpp:37-80 | at the end of a switch the machine sleeps, or is idle in a computation power state |
| Machines.MachinePromises | src/machines.cpp:742-813 | in every reachable state: a machine has exactly the running jobs allocated to it, computes or is unavailable if it has any, has at most one without sharing; its times add up to its last change; each counter is the recount |
| Profiles.Profiles.RemoveUnreferencedProfiles | src/profiles.cpp:125-134 | in any map order, no profile reachable from a job is dropped, and what is dropped is freed; of a workload just loaded exactly those profiles stay that a chain of parts reaches from a job, or from a composed profile that is not listed before its own part on the chain |
| Profiles.OnlyUsedIsKept | src/profiles.cpp:125-134 | if composed profiles come before their parts, these are exactly the used ones |
| Profiles.UnheldIsNotKept | src/profiles.cpp:125-134 | a profile that nobody holds stays in no order of the map |
| Profiles.Profiles.CleanUpThenFind | src/jobs_execution.cpp:238-239 | a continuation known by name only is found after the clean-up if and only if the clean-up keeps it for other reasons, and never if nobody holds it |
| Profiles.LostContinuation | src/jobs_execution.cpp:238-239 | a workload whose continuation is lost |
| Profiles.Profiles.UsedIsAlive | src/workload.cpp:123-139 | a profile of a job, or part of one, is alive and held by somebody besides the map |
| Profiles.Profiles.RemoveProfile | src/profiles.cpp:92-123 | exactly the pointers reached through pointers that are still there are dropped, and no name is forgotten |
| Profiles.Profiles.DeleteJob | src/jobs.cpp:276-288 | with garbage collection exactly the map's pointers to the job's profile and to its parts are dropped, without it none; what the remaining jobs use stays alive |
| SwfReplay.TakeFirstResources | tools/common.py:7-28 | the smallest resources are taken, failing only if there are too few; the check of the order never fails |
| SwfReplay.Replay | tools/swf_to_batsim_output_csv.py:82-124 | the replay fails exactly if at some date the running jobs need more than there is; free and given resources are a partition at every event; overlapping jobs share nothing and get what they asked for |
| SwfReplay.NextRunning | tools/swf_to_batsim_output_csv.py:82-98 | with finishes sorted before starts, every finish ends a running job and every start starts a new one |
| SwfReplay.RunningAtDate | tools/swf_to_batsim_output_csv.py:82-98 | after all events up to a date, exactly the jobs of that date run |
| Batching.Submitter.SubmitAll | src/job_submitter.cpp:107-153 | the batches put together are the list; the first is sent at the start or at its first date, each other one begins with an item that was not due before and is sent at its date, late by the time that the send before took; with instantaneous sends every later batch has a single date |
| Batching.Submitter.SendAndSleep | src/event_submitter.cpp:57-75 | the same for the step that sends and sleeps, however long the sending takes |
| Batching.SortIsUnique | src/jobs.cpp:344-351 | the sorted list does not depend on the order in which the map lists the jobs |
| Batching.JobOrder | src/jobs.cpp:344-351 | the comparator orders jobs with different ids strictly and totally |
| Batching.JobTransitive | src/jobs.cpp:344-351 | and transitively |
| Batching.TieByCharacter | src/jobs.cpp:344-351 | of two jobs of one date, the one with the smaller character in its id comes first |
| Batching.TieByLength | src/jobs.cpp:344-351 | or the one whose id ends there; of two dates the earlier one |
| Batching.SortSorts | src/job_submitter.cpp:87-105 | the jobs of the map are sorted by the comparator, each once |
| Batching.SubmitJobs | src/job_submitter.cpp:87-153 | the jobs of the map are submitted in the sorted order, each once, in batches that are never early |

## Left out

- The simulator itself, sockets, Redis, JSON and XML parsing, logging, command-line options: foreign calls and I/O.
- `server_on_change_job_state`: its completing branches write the job before setting its state, which stops the simulation at src/export.cpp:1302.
- ServerProcess.Server.OnJobSubmitted: does not model the server's registry of submitters and the origin of each job, because only the number of finished submitters decides anything in the server; `WorkflowFates` speaks of the callback that the registry is for.
- ServerProcess.Server.HandleMessage: has no handlers for SUBMITTER_HELLO, messages of and to jobs, changes of job states, profile registration and queries, which touch neither the counters nor the killers.
- ServerProcess.Server.DeleteQueuedJobs: does not model the clean-up of the deleted jobs' profiles; `Profiles.Profiles.DeleteJob` does, on the profiles alone.
- Workflows.SubmitReady: submitting always succeeds; the second job of a task, which the source refuses for its profile name, needs a repeated edge.
- Workflows.SubmitterProcess: every awaited job completes; `WorkflowFates` says what happens otherwise.
- Registration of profiles, job metadata, messages to and from running jobs, and queries of energy and footprints: they change nothing the properties speak about.
- The `-k` option: the number of workflows is returned as a `bool` (src/workflow.cpp:272).
- The metrics, maxima and per-machine utilization that `write_job` sums up, and the file formats: that a job is written once is modelled, not what is computed from it.
- ServerProcess.Server.PstateModificationTaken: models how many machines take time to switch, not which; `PstateRequests` models the whole request, and `Machines` the states of the machines.
- Executing SCHEDULER_RECV, SMPI and usage-trace profiles: they poll for messages or run foreign replays.
- TaskTrees.BatTask: the sub-tasks are given to the constructor instead of being appended one by one afterwards; they never change later for the modelled profiles.
- TaskProfiles.MergeProfiles: does not model a job with a storage profile that also has an IO profile, nor custom executor mappings, both of which the code marks as unsupported (src/task_execution.cpp:490, 515).
- Machine ids in the order of names: the sorted vector is a copy (src/machines.cpp:1056), so only the order is modelled.
- Rounding of floating-point numbers, the epsilon put for null runtimes, and 32-bit wrap-around of task indices.
- `WriteBuffer`, tracer outputs, zones, footprints and platform generators: they copy values to files or set up the platform, and nothing that is modelled reads them back.
