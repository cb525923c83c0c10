# Ortrix execution core: model and proofs

Ortrix runs tasks: an engine keeps them in memory, writes every state change to a write-ahead log before applying it,
hashes each task to a partition that some node owns, and talks to workers over streams that reconnect with a growing
backoff. This project models that core in Dafny and proves what it keeps over whole runs.

Each component has two layers. A *value layer* describes one call as a function from state to state, and runs as
sequences of calls; the theorems are about it. An *object layer* has the classes of the source (`Task`,
`InMemoryLogger`, `DefaultManager`, `Engine`, `WorkerServiceHandler`, `GatewayService`, `StreamManager`), whose methods
update fields, maps, task objects and the log's buffer in place; each method's contract says that its effect and its
answer are those of the value layer. `Engine.ExecuteAll` and the trace kept by `StreamManager` carry this from one call
to every sequence of calls.

| file | models |
|---|---|
| `TaskState.dfy`, `Task.dfy` | the transition table and one task |
| `TaskId.dfy` | how task ids are printed and read back |
| `Wal.dfy` | the in-memory log, its slice header and Replay |
| `Partition.dfy` | hashing to partitions, round-robin ownership, membership changes |
| `EngineSpec.dfy`, `Executor.dfy` | the engine as values and as an object |
| `Interleaving.dfy` | what calls of other clients do to one task and to its object |
| `Recovery.dfy`, `PartialRecovery.dfy`, `GapOrder.dfy`, `Checkpoints.dfy` | rebuilding the engine from the log, from the entries of one task or partition, and from an earlier engine and a checkpoint |
| `History.dfy` | the life of one task, the workflow index, times |
| `Commutation.dfy` | calls about different tasks commute; an engine on a log that holds entries |
| `Cluster.dfy` | engine and manager together; counting |
| `Gateway.dfy`, `Outcomes.dfy` | worker results, status answers, and what of a task's outcome is stored and logged |
| `Provenance.dfy` | which call each field, log entry and list element comes from, and which calls succeed |
| `Backoff.dfy`, `Stream.dfy` | the backoff arithmetic and the reconnection steps |
| `Witnesses.dfy`, `StreamWitnesses.dfy` | runs that reach the states the findings below are about |
| `Results.dfy` | options, results and errors |

What comes from outside is a parameter: clock readings and whether the storage behind the log accepts a write (`Env`),
the hash (`Config.hash`, any function), the order in which a map iteration meets the nodes, the outcome of a dial and
of a callback, and what other clients do while a lock is free.

What the proofs found in the code:

- The log determines the engine exactly when no create reuses a task id. The engine does not check the id: a reused
  one overwrites the task, even a completed one, and lists it twice (`RecoveryExactIff`, `ReuseUndoesCompletion`). A
  clock past 1970 that moves between creates is enough (`AdvancingClockKeepsIdsFresh`); before 1970 two different
  workflows can share an id (`SameIdIff`). Each task that no create overwrote is rebuilt all the same, and an
  overwritten one exactly under a condition on its entries (`TaskRecovers`, `TaskRecoversIff`).
- `Replay` cuts by position while `Close` drops entries and keeps the numbering, so after a `Close` it can lose entries
  nobody checkpointed (`ReplayMeetsItsPurposeIff`, `ReplayIsCompleteIff`, `ReplayAfterCloseLosesAnEntry`).
- `NewEngine` takes a logger that holds entries and neither reads them nor their numbering: its counter is behind the
  log until its first own entry (`UsedLogger`).
- Reading the log from a checkpoint older than the snapshot gives the right states but counts the attempts in the
  overlap twice (`Reread`, `CheckpointRecoversIff`, `OldCheckpointCountsTwice`).
- `CompleteTask` and `FailTask` store the result or the error before the log accepts it. A completed task can
  therefore report an error, and a failed one a result (`CompletedAnswerIsCleanIff`, `FailedAnswerIsCleanIff`,
  `AnswerIsCleanIff`, `CompletedWithError`, `FailedWithOutput`).
- `TransitionTask` can complete or fail a task too and then logs the payload instead of the result or the error
  (`OutcomeLoggedIff`, `CompletedPastTheLog`).
- `GetTasksByState` copies after it has released the lock, so a task it answers can be in another state
  (`CopyStillInStateIff`, `LateCopyInOtherState`).
- `CreateTask` returns the object the engine keeps, so a client can change the task past the table and the log
  (`WriteToCreated`). A write to an object reaches the engine exactly when the engine holds that object (`Write`); the
  other accessors return copies.
- The node list of a rebalance is documented as sorted, but the code uses the order of the map iteration, on which the
  owners depend as soon as there are two nodes and a partition (`OrderIrrelevantIff`). The other ownership results hold
  for every order.
- Once `MaxRetries` dials in a row have failed the stream never comes back (`ComesBackIff`, `RetriesCanRunOut`).
- `Close` leaves `isConnected` alone: a manager closed while connected answers yes to `IsConnected` until the stream is
  marked disconnected or has a new connection, while `GetConnection` fails (`DisagreeIff`, `ClosedButConnected`). The
  selects of the loop may take their timer although the manager is closed, so an attempt can install a connection that
  nobody closes (`ServesClosedIff`, `ServesAfterClose`).
- The second check of a transition, after the log has accepted the entry, cannot fail (`ExplainRecord`).

## Model

| member | source | states |
|---|---|---|
| TaskState.TerminalIffStuck | internal/task/state.go:54-94 | among the valid states the terminal ones are exactly those from which no transition is allowed |
| TaskState.CheckAnswers | internal/task/state.go:54-84 | a transition is allowed exactly along the table; otherwise the answer says whether the old state is unknown, the new one is, or the table lacks the pair |
| TaskState.LegalPathIffClosedForm | internal/task/state.go:54-84 | the sequences of states the table allows are exactly: PENDING, SCHEDULED, DISPATCHED round and round, then at most one terminal state, COMPLETED or FAILED when 3 divides the number of running states and CANCELLED when not |
| TaskState.DispatchesOfClosedForm | internal/task/task.go:79-84 | such a sequence dispatches once per full round |
| Tasks.Task.constructor | internal/task/task.go:53-67 | a new task is PENDING with no attempts, and MaxAttempts 3 |
| Tasks.Task.TransitionTo | internal/task/task.go:71-91 | moves the object as the value layer says, or leaves it alone and reports the table's error |
| Tasks.Task.Copy | internal/task/task.go:99-118 | a fresh object with equal fields |
| TaskId.ParseMake | internal/executor/executor.go:65 | what stripping the prefix and splitting at the last dash gives for every id, whatever dashes the workflow has and whatever the clock reads: workflow and time, but the sign of a time before 1970 goes to the workflow |
| TaskId.SameIdIff | internal/executor/executor.go:65 | two ids are equal exactly when workflow and time are, or when one clock is negative and its sign was read as a dash of the workflow |
| TaskId.AsPrinted | internal/executor/executor.go:65 | two printed ids, one with a clock before 1970 |
| Wal.RunKeepsLogInv | internal/wal/wal.go:72-133 | after any appends, checkpoints and closes the numbers are 1, 2, 3, ... over everything ever appended, the log holds a suffix of it, and the checkpoint is not beyond the end |
| Wal.LogHoldsWhatWasWritten | internal/wal/wal.go:72-133 | after every run of the log: its entries are those that Append took since the last Close, each with the caller's task, workflow, state and data, numbered from 1 over the whole life and stamped with the time of the call, and its checkpoint is the last one not beyond the entries of its time |
| Wal.AppendAnswers | internal/wal/wal.go:72-93 | Append succeeds exactly on an entry with task, workflow and state and answers the number that no other entry has; otherwise it names what is missing and changes nothing |
| Wal.NothingAfterClose | internal/wal/wal.go:97-147 | after Close, Replay and GetAll answer nothing until Append takes an entry again |
| Wal.ReplayMeetsItsPurposeIff | internal/wal/wal.go:97-112 | Replay returns the held entries above the checkpoint exactly when Close dropped nothing, or nothing is held, or none or all are committed |
| Wal.ReplayIsCompleteIff | internal/wal/wal.go:25-26 | it returns all entries ever logged above the checkpoint exactly when Close dropped nothing, or all are committed |
| Wal.ReplayAfterCloseLosesAnEntry | internal/wal/wal.go:95-133 | a run after which Replay leaves out an entry that is held and not committed |
| Wal.InMemoryLogger.Append | internal/wal/wal.go:72-93 | refuses incomplete entries; otherwise numbers, stamps and appends in place or in a larger buffer, and never changes what an earlier slice header sees |
| Wal.InMemoryLogger.Checkpoint | internal/wal/wal.go:115-125 | accepts any number up to the latest, also a smaller one than before, and changes nothing else |
| Wal.InMemoryLogger.Close | internal/wal/wal.go:128-133 | drops the entries and keeps the numbering |
| Wal.InMemoryLogger.Replay | internal/wal/wal.go:97-112 | whatever other callers do between the lock and the copy, the answer is the uncommitted suffix of the moment of the lock |
| Wal.InMemoryLogger.GetAll | internal/wal/wal.go:138-147 | all entries held at the moment of the lock, in order, whatever other callers do between the lock and the copy |
| Partition.RunIsBalanced | internal/partition/partition.go:97-192 | after any run of register, unregister and rebalance the owners are the round robin over some enumeration of the nodes registered now |
| Partition.OrderIrrelevantIff | internal/partition/partition.go:171-192 | every order in which the map iteration can meet the nodes gives the same owners exactly when there are fewer than two nodes or no partitions |
| Partition.ExactSharesAfterRun | internal/partition/partition.go:171-192 | the node at position k of that enumeration owns exactly (count - k + n - 1) div n partitions |
| Partition.SharesDifferByAtMostOne | internal/partition/partition.go:169-192 | after any run no node owns two partitions more than another |
| Partition.SharesSumToCount | internal/partition/partition.go:169-217 | with a node registered the shares sum to the number of partitions |
| Partition.ExactlyOneOwner | internal/partition/partition.go:143-217 | with a node registered each partition has exactly one owner, it is registered, and GetOwner and GetPartitions agree on it |
| Partition.NoOwnerIff | internal/partition/partition.go:143-158 | after every run GetOwner calls a number invalid exactly when it is no partition, and finds no owner exactly when no node is registered |
| Partition.MemberIff | internal/partition/partition.go:97-140 | after every run of membership changes a node is registered exactly when the last change naming it was a registration, and the empty name never is |
| Partition.RegisterRefusedIff | internal/partition/partition.go:97-107 | after every run a registration is refused exactly for the empty name and for a node that is registered, with which error, and a refusal changes neither nodes nor owners |
| Partition.UnregisterRefusedIff | internal/partition/partition.go:122-132 | the same for unregistering, refused exactly for the empty name and for a node that is not registered |
| Partition.PartitionIsHash | internal/partition/partition.go:76-94 | AssignPartition fails exactly on an empty id or with no partitions, and says which; otherwise the partition is valid and congruent to the hash of the id |
| Partition.DefaultManager.constructor | internal/partition/partition.go:63-72 | a count that is not positive becomes 10 |
| Partition.DefaultManager.RegisterNode | internal/partition/partition.go:97-119 | refuses an empty or known id and then changes nothing; otherwise adds the node and deals the partitions out over all nodes |
| Partition.DefaultManager.UnregisterNode | internal/partition/partition.go:122-139 | refuses an empty or unknown id; otherwise removes the node and deals the partitions out over the rest |
| Partition.DefaultManager.RebalancePartitions | internal/partition/partition.go:171-192 | the loop deals the partitions out in turn over some enumeration of the nodes |
| Partition.DefaultManager.GetOwner | internal/partition/partition.go:143-158 | the owner, or which of the two errors |
| Partition.DefaultManager.GetPartitions | internal/partition/partition.go:196-217 | each partition of the node exactly once, or an error for an empty or unknown node |
| Partition.DefaultManager.GetNodes | internal/partition/partition.go:221-231 | each node exactly once |
| EngineSpec.Explain | internal/executor/executor.go:53-270 | every call has one of four effects: none, a stored result or error without a log entry, one log entry and the matching move, one log entry and the matching new task |
| EngineSpec.ExplainRecord | internal/executor/executor.go:139-162 | once a move is allowed it happens exactly when the storage accepts the entry; the second check of the transition cannot fail |
| EngineSpec.RunKeepsInv | internal/executor/executor.go:53-270 | in every reachable engine that began on an empty logger the counter is the latest sequence, tasks are coherent and in their hashed partition, and index and task map name the same tasks |
| Commutation.UsedLogger | internal/executor/executor.go:31-50 | on a logger that holds entries an engine has, after any run, the tasks and lists it would have on an empty one and logs the same entries numbered on; its counter is the latest sequence exactly when the logger was empty or it has logged an entry of its own |
| Executor.Engine.constructor | internal/executor/executor.go:31-50 | a new engine has no tasks and counts from 0, whatever the logger holds |
| Executor.Engine.CreateTask | internal/executor/executor.go:53-103 | the in-place method has exactly the effect and answer of the value layer, and returns the object it stores, PENDING, with the caller's workflow, name and payload |
| Executor.Engine.TransitionTask | internal/executor/executor.go:126-171 | the same, touching only that task and the log, and returning a fresh copy |
| Executor.Engine.CompleteTask | internal/executor/executor.go:174-220 | the same; the result is stored before the log decides |
| Executor.Engine.FailTask | internal/executor/executor.go:223-270 | the same; the error is stored before the log decides |
| Executor.Engine.GetTask | internal/executor/executor.go:107-123 | the object found under the lock as it is when it is copied, after any calls of other clients in between, or which error |
| Executor.Engine.GetWorkflowTasks | internal/executor/executor.go:274-301 | every id listed at the first lock is found, and the i-th answer has the i-th id listed; with other clients calling before each lookup and between each lookup and its copy, each copy is what became of the object found |
| Interleaving.LookupEachAt | internal/executor/executor.go:290-298 | of n ids the i-th thing read is the task of the i-th id, as it is read in the i-th round of the others |
| Executor.Engine.GetTasksByState | internal/executor/executor.go:305-323 | selects the tasks in the state under the lock, each once, for any iteration order; with other clients acting before every copy, the i-th copy is what became of the i-th task selected, also when a create has overwritten it |
| Executor.Engine.GetTasksForPartition | internal/executor/executor.go:327-344 | the same for the tasks of a partition |
| Interleaving.FollowEachAt | internal/executor/executor.go:317-322 | of n selected tasks the i-th copy is the task of the i-th id, after i + 1 turns of the others |
| Executor.Engine.Checkpoint | internal/executor/executor.go:347-349 | passes the number on to the log |
| Executor.Engine.ExecuteAll | internal/executor/executor.go:20-28 | any sequence of calls takes the object to the state the run of the value layer ends in, and each task object goes along with its task until a create overwrites it |
| Executor.Write | internal/task/task.go:99-118 | a client's write to any object changes the engine exactly when the engine holds that object and the write changes it |
| Executor.WriteToAnswer | internal/executor/executor.go:107-123 | so GetTask, with other clients calling before its copy, followed by any write to what it answers leaves the engine as those calls leave it |
| Executor.WriteToCreated | internal/executor/executor.go:90-103 | a write to the object CreateTask answers changes the engine's task, past the table and past the log |
| Recovery.RecoveryExactIff | internal/wal/wal.go:43-46 | after any run, with appends failing anywhere, folding everything logged gives the engine's tasks (workflow, state, payload, partition, attempts) and workflow lists exactly when no create reused an id |
| Recovery.FreshIffNoneRemade | internal/executor/executor.go:90-93 | a run reuses no id exactly when it overwrites no task, which links the results about runs to those about one task |
| Recovery.AdvancingClockKeepsIdsFresh | internal/executor/executor.go:65 | a clock past 1970 that moves between creates never reuses an id |
| Recovery.FoldListsOnce | internal/executor/executor.go:91-93 | a fold lists each id once, whatever the log |
| PartialRecovery.PartitionRecovers | internal/executor/executor.go:327-344 | in every run that overwrites no task of the partition, folding the entries of that partition gives exactly its tasks |
| PartialRecovery.TaskRecovers | internal/wal/wal.go:43-46 | in every run the log rebuilds each task that no create overwrote, whatever became of the others |
| PartialRecovery.TaskRecoversIff | internal/wal/wal.go:43-46 | in every run the log rebuilds a task, overwritten or not, exactly when the first entry of its id names the workflow and holds the payload of its last creation, and the id was not dispatched before that |
| PartialRecovery.PartitionsMakeTheWhole | internal/executor/executor.go:71-75 | after every run what the partitions rebuild, each from its own entries, is together what the whole log rebuilds |
| PartialRecovery.KeepRecoversSelection | internal/wal/wal.go:35-46 | folding the entries of any selection of tasks gives those tasks as the whole log has them |
| PartialRecovery.SameProjectionsSameTasks | internal/wal/wal.go:35-46 | logs that agree task by task rebuild the same tasks, so entries of different tasks commute |
| Commutation.CallsCommute | internal/executor/executor.go:53-270 | after any run, whatever two calls about different tasks come next, in either order the tasks, the counter and, task by task, the log come out the same but for the numbers of the entries, and both clients are answered the same |
| Commutation.LogsCommute | internal/wal/wal.go:35-46 | and such logs rebuild the same tasks |
| Commutation.SwapAnywhere | internal/executor/executor.go:53-270 | swapping two such neighbouring calls anywhere in a run does not change the tasks at its end |
| PartialRecovery.Reread | internal/wal/wal.go:95-112 | a snapshot brought up to date from an older checkpoint has the right states, payloads, partitions and lists, and exactly the overlapping dispatches counted twice |
| Checkpoints.CheckpointRecoversIff | internal/wal/wal.go:95-133 | in every run without a reused id, for any earlier engine and any checkpoint the log accepts, also of a log closed over entries: when Replay reads from before the snapshot, the result is the present engine exactly when no DISPATCHED entry lies between; when it reads from after it, the tasks are right exactly when every task logged in between is not dispatched there and is logged again later, and the lists too exactly when each task created in between is logged again before any later created task of its workflow |
| GapOrder.ListsKeptIff | internal/executor/executor.go:91-93 | leaving a stretch out of a log that starts the same tasks without it keeps every workflow's list exactly when it keeps that order |
| Outcomes.HoldsWhatWasStored | internal/executor/executor.go:174-256 | in every run a task holds the result of the last CompleteTask and the error of the last FailTask that found it dispatched, whether the log took them or not |
| Outcomes.LastMoverExplains | internal/executor/executor.go:77-270 | in every run the last successful call about a task explains its state and the data of its last entry: the payload after CreateTask and TransitionTask, the result after CompleteTask, the error after FailTask |
| Outcomes.OutcomeLoggedIff | internal/executor/executor.go:139-256 | in every run the result of a completed task and the error of a failed one are in the log exactly when CompleteTask or FailTask finished it, or TransitionTask did and what was stored last equals the payload |
| Outcomes.AnswerIsCleanIff | internal/gateway/gateway.go:127-141 | in every run the answer about a completed or failed task has the result and the error stored last; the one about a completed task is free of an error, and the one about a failed task free of an output, exactly when none was stored |
| Provenance.EveryFieldHasItsCall | internal/executor/executor.go:53-270 | in every run, with reused ids and refused writes anywhere: a task exists exactly when a create of its id succeeded; workflow, name, payload and CreatedAt are what the last such create was given or read, MaxAttempts is 3, the partition is the hash of the id; state, UpdatedAt and CompletedAt come from the last successful call about it, Attempts and DispatchedAt from its successful dispatches, result and error from what was stored last |
| Provenance.LogHasEveryCall | internal/executor/executor.go:77-270 | in every run the log got exactly one entry for each call that succeeded, in the order of the calls, numbered from 1, with the workflow of the task, the state the call asked for, the time it was logged, and as data the payload the task was created with, the result or the error the call was given |
| Provenance.LogHoldsSinceClose | internal/executor/executor.go:347-365 | of those entries the log holds the ones since the engine was last closed; its checkpoint is the last accepted one, and the sequence counter is their number |
| Provenance.ListsHaveEveryCreate | internal/executor/executor.go:91-93 | in every run, also with reused ids, the list of a workflow is the ids of the successful creates for it, in order |
| Provenance.SucceedsIff | internal/executor/executor.go:53-270 | after every run a call succeeds exactly when the storage accepts it and: for a create, workflow and name are given and there are partitions; for a transition, the table allows it from the state the earlier successful calls left the task in; for a result or an error, they left it DISPATCHED |
| Provenance.RefusedBecause | internal/executor/executor.go:53-270 | a call that fails is told exactly which of these conditions failed |
| Provenance.AnswersTheTask | internal/executor/executor.go:103-270 | after every run a successful call answers the task as the engine then holds it |
| Provenance.CreateDoesAsTold | internal/executor/executor.go:53-103 | on any engine: when a create succeeds, what it answers, stores and logs in terms of its arguments; a refused one changes nothing |
| Provenance.MoveStamps | internal/task/task.go:71-91 | a move sets UpdatedAt to the first clock reading of the call, DispatchedAt or CompletedAt to the second, counts a dispatch, and leaves the other of these as they are |
| History.ClosedFormOfEveryTask | internal/task/task.go:71-91 | in every run the entries of a task have the closed form with an attempt for every full round exactly when no create overwrote this task, and then the terminal state fits the count |
| History.HappensIffLegal | internal/executor/executor.go:126-171 | over all runs without a reused id the logged histories of tasks are exactly the paths the table allows: none else occurs, and each of them does |
| History.TasksOnlyEvolve | internal/executor/executor.go:126-270 | any further calls that do not create this id again keep the identity of the task, log a path the table allows from its state, leave it at the end of that path with an attempt for each dispatch on it, and neither change nor log anything when it is final |
| History.LateLookupFindsEvolvedTask | internal/executor/executor.go:279-298 | what GetWorkflowTasks reads late is the listed task, evolved along what was logged of it since, unless a create has reused its id before the lookup |
| History.SelectedTaskEvolves | internal/executor/executor.go:305-344 | what GetTasksByState and GetTasksForPartition copy of a selected task is that task, evolved, whatever calls come between |
| History.CopyStillInStateIff | internal/executor/executor.go:305-323 | such a copy still has the state it was selected for exactly when that state was final, or a multiple of three states was logged for the task since, none of them final |
| History.ListsAreInCreationOrderIff | internal/executor/executor.go:91-93 | after every run each workflow's list is the ids of its creation entries in log order, exactly when no create reused an id |
| History.ListsPartitionTheTasks | internal/executor/executor.go:91-93 | after every run no id is listed twice exactly when no create reused one, and then each task is in the list of its own workflow and in no other |
| History.TimesAreInOrder | internal/task/task.go:71-91 | under a clock that does not run backwards a task is created, dispatched and completed in that order, DispatchedAt is set exactly when it was attempted and CompletedAt exactly when it is COMPLETED |
| Cluster.ExactlyOneNodePerTask | internal/partition/partition.go:143-217 | after any interleaving of calls and membership changes that leaves a node, each task belongs to exactly one registered node |
| Cluster.PartitionNeverChanges | internal/executor/executor.go:71-75 | no call and no membership change moves a task to another partition |
| Cluster.StatesDivideTheTasks | internal/executor/executor.go:305-323 | after any run the ids that GetTasksByState selects for the six states are together as many as there are tasks |
| Cluster.PartitionsDivideTheTasks | internal/executor/executor.go:327-344 | so are the ids that GetTasksForPartition selects for all partitions |
| Cluster.OneTaskPerCreation | internal/executor/executor.go:91-93 | there are as many tasks as successful creates exactly when no create reused an id |
| Gateway.FirstResultWins | internal/gateway/gateway.go:175-196 | of any calls after a task was dispatched, as long as none is TransitionTask for it or creates its id again, the first report that reaches the log decides the state and its own half of the outcome, it alone is logged, and later ones change nothing; reports refused before it leave their result or error behind |
| Gateway.FirstMessageWins | internal/gateway/gateway.go:175-196 | of any messages about any tasks that arrive after a task was dispatched, nil ones, duplicates and contradictions among them, the first one about it that the log takes decides: COMPLETED with its output when its success flag is set and FAILED with its error when not, logged once; messages refused before it leave their output or error behind |
| Gateway.ClientsAreToldTheFirst | internal/gateway/gateway.go:105-196 | and then GetTaskStatus answers that state, the flag of that message and its output or error |
| Gateway.StatusTellsTheTask | internal/gateway/gateway.go:105-144 | the status succeeds exactly for the ids of tasks; it has the id and the state of the task, and an outcome exactly when that is COMPLETED or FAILED, with the success flag set exactly when COMPLETED, the stored result and error, and UpdatedAt in whole seconds; otherwise it says whether the id was missing or unknown |
| Gateway.CompletedAnswerIsCleanIff | internal/gateway/gateway.go:133-141 | after such calls the answer about the completed task has the deciding output, and the error stored last before it; it is clean exactly when that is empty |
| Gateway.FailedAnswerIsCleanIff | internal/gateway/gateway.go:133-141 | the same for a failed task: its answer has the deciding error, and the result stored last before it |
| Gateway.FinalAnswerNeverChangesIff | internal/gateway/gateway.go:105-144 | once the status is final the answer stays the same through any further calls exactly when none of them creates this id again |
| Gateway.LateStatusIs | internal/gateway/gateway.go:117-143 | an answer copied late is the status after the calls in between unless one of them creates the id again, and about a final task it is the status before them whatever they are |
| Gateway.WorkerServiceHandler.HandleTaskResult | internal/gateway/gateway.go:175-196 | the method makes the engine calls of the message that `FirstMessageWins` speaks of: none for a nil result, one for any other |
| Gateway.GatewayService.GetTaskStatus | internal/gateway/gateway.go:105-144 | the answer about the task found, as `StatusTellsTheTask` says, as it is when it is copied after any calls of other clients, or which error |
| Witnesses.ReuseUndoesCompletion | internal/executor/executor.go:90-93 | a run in which a create overwrites a completed task, so that its final status is gone and the log no longer rebuilds the engine |
| Witnesses.OldCheckpointCountsTwice | internal/wal/wal.go:95-112 | a run whose engine, brought up to date from checkpoint 0, is not the engine |
| Witnesses.CompletedWithError | internal/executor/executor.go:241-252 | a run after which the answer about a completed task tells an error |
| Witnesses.FailedWithOutput | internal/executor/executor.go:192-203 | a run after which the answer about a failed task tells a result |
| Witnesses.CompletedPastTheLog | internal/executor/executor.go:139-157 | a run after which a completed task holds a result that the log does not |
| Witnesses.LateCopyInOtherState | internal/executor/executor.go:309-322 | a run and a call of another client after which GetTasksByState(PENDING) answers a SCHEDULED task |
| Backoff.NeverShrinksIff | internal/streaming/stream.go:203-208 | for every configuration, while dials fail the backoff never shrinks exactly when it does not in the first two steps |
| Backoff.NeverShrinksWhen | internal/streaming/stream.go:35-43 | with an initial backoff of at least 0, it never shrinks exactly when that is at most the maximum and is 0 or the multiplier at least 1 |
| Backoff.After | internal/streaming/stream.go:203-208 | after a failed dial it does not exceed the maximum, for every configuration |
| Backoff.NextCutsTowardZero | internal/streaming/stream.go:203-208 | for every configuration and sign the product loses its fraction towards zero and is then cut at the maximum |
| Backoff.AtMostExponential | internal/streaming/stream.go:203-208 | for an initial backoff and a multiplier of at least 0, after k failures it is at most initial times multiplier to the k |
| Backoff.AtLeastExponential | internal/streaming/stream.go:203-208 | below the maximum, for a multiplier of at least 1, truncation costs at most a nanosecond a step |
| Backoff.FadesExponentially | internal/streaming/stream.go:203-208 | for a multiplier below 1 it only shrinks, and again truncation costs at most a nanosecond a step |
| Backoff.DefaultMultiplierBounds | internal/streaming/stream.go:35-43 | with multiplier 1.5 it lies between min(max, 1 + 1.5^k (initial - 1)) and min(max, 1.5^k initial) |
| Backoff.ReachesMaxIff | internal/streaming/stream.go:203-208 | for an initial backoff and a multiplier of at least 0, it reaches the maximum exactly when it starts there, or above it and one multiplication does not lead below it, or below it and the first step gains a nanosecond |
| Backoff.DefaultReachesMaxAfter15 | internal/streaming/stream.go:35-43 | the default configuration takes exactly 15 failures |
| Stream.OneCallbackPerEdge | internal/streaming/stream.go:261-272 | callbacks run plus callbacks pending are as many as the disconnections, for any interleaving of any number of callers, also with Close |
| Stream.RetryAccounting | internal/streaming/stream.go:140-234 | between attempts the backoff is the step iterated retryCount times, retryCount counts the dials since the last success, and neither exceeds a positive MaxRetries |
| Stream.GivesUpIff | internal/streaming/stream.go:165-178 | in every life an attempt gives up exactly when a positive MaxRetries is set and so many dials have failed in a row; otherwise it waits for the backoff those failures lead to |
| Stream.ConnectedIff | internal/streaming/stream.go:211-272 | in every life the stream counts as connected exactly until somebody marks it disconnected or onConnected fails, since the last installation; between such a failure and the loop's own mark it may be either |
| Stream.OnlyCloseStops | internal/streaming/stream.go:140-194 | in every life the loop ends only when the manager is closed |
| Stream.ComesBackIff | internal/streaming/stream.go:162-245 | from every state GetConnection can answer now or later exactly when the loop runs and an attempt under way has passed the limit check or a later one can, also in a closed manager whose loop has not seen that yet |
| Stream.DisagreeIff | internal/streaming/stream.go:237-302 | in every life there is no connection only after Close, and IsConnected and GetConnection disagree exactly when the first Close found the stream connected and it has since neither been marked disconnected nor got a new connection |
| Stream.ServesClosedIff | internal/streaming/stream.go:211-302 | in every life a closed manager answers a connection exactly when an attempt installed one after Close and it has not been marked disconnected since |
| Stream.StreamManager.AttemptReconnect | internal/streaming/stream.go:162-234 | with other callers of MarkDisconnected and Close acting whenever the lock is free, the method takes exactly the loop steps its outcome calls for, stops during the wait only if the manager is closed and the select takes that case, and returns the loop's new backoff |
| Stream.StreamManager.CheckConnection | internal/streaming/stream.go:140-159 | one round ends the loop if the manager is closed and the select takes that case, and else attempts a reconnection exactly when it sees the stream disconnected |
| Stream.StreamManager.CallbacksMatchEdges | internal/streaming/stream.go:261-272 | in every life of a manager the callbacks counted in its field fit the disconnections |
| Stream.StreamManager.BackoffMatchesRetries | internal/streaming/stream.go:162-208 | in every life of a manager the retryCount field decides the backoff between attempts |
| Stream.StreamManager.DisagreementFollowsClose | internal/streaming/stream.go:237-302 | in every life the fields make IsConnected and GetConnection disagree exactly then |
| Stream.StreamManager.GetConnection | internal/streaming/stream.go:237-245 | answers exactly while there is a connection and the stream counts as connected |
| Stream.StreamManager.Close | internal/streaming/stream.go:275-302 | drops the connection and marks the manager closed, once, and leaves isConnected and the loop as they are |
| Stream.StreamManager.IsConnected | internal/streaming/stream.go:248-253 | answers isConnected, also after Close |
| StreamWitnesses.RetriesCanRunOut | internal/streaming/stream.go:165-173 | for every positive MaxRetries, a life of an open manager after which its stream can never come back |
| StreamWitnesses.ClosedButConnected | internal/streaming/stream.go:248-302 | a life after which the manager is closed and counts as connected, while GetConnection fails |
| StreamWitnesses.ServesAfterClose | internal/streaming/stream.go:211-217 | a life in which an attempt installs a connection after Close, and GetConnection answers it |

## Left out

- Payload buffers: results, payloads and entry data are values, so aliasing of a caller's byte slice with the engine's is not modelled.
- Tasks.Task.Copy: bytes are values, so that the copy has payload and result buffers of its own is not stated. The source's comment calls the copy shallow, but it copies the buffers.
- Torn reads: other clients act between every lookup and its copy in the model, but the copy of one task is one step, and in the source they can change fields while it runs.
- The NoOpLogger and the JSON form of entries: the refinement does not hold for a logger that numbers nothing.
- FNV-1a: the hash is any function of the id; sequence numbers and hashes are natural numbers without wrap-around at 64 bits.
- AtLeastExponential: multiplication of a float by a duration is exact in the model; for multipliers that are not exact in binary the source rounds before it truncates.
- NeverShrinksIff: durations are unbounded; with a MaxBackoff near 2^63 nanoseconds the source's conversion of a float to a Duration can overflow.
- AtMostExponential: stated, like the other bounds, for configurations without negative durations and multipliers.
- A failing Connect, or several Connect calls on one stream manager, each of which would start a loop of its own; and a manager without an onDisconnected callback.
- Log output, error texts, onError callbacks, gRPC, HTTP, configuration and the worker SDK.
- SubmitTask: it validates its request and calls CreateTask with a workflow id made from the clock.
- Routing, scheduling, leases, fencing, snapshots and sagas: placeholders or design documents only.
- MaxAttempts and CanRetry: no transition consults them.
