/** The engine as the object that updates its maps and its tasks in place (internal/executor/executor.go). */
module Executor {
  import opened Results
  import opened TaskState
  import opened Tasks
  import opened Wal
  import opened Partition
  import opened EngineSpec
  import opened Interleaving
  import TaskId

  class Engine {
    const walLogger: InMemoryLogger
    const partitionMgr: DefaultManager
    var tasks: map<string, Task>
    var workflowTasks: map<string, seq<string>>
    var sequenceCounter: nat
    ghost var kept: set<Task>  // every task object the engine ever stored

    ghost predicate Holds()
      reads `tasks, `kept
    {
      forall id :: id in tasks ==> tasks[id] in kept
    }

    ghost function Views(): map<string, TaskView>
      requires Holds()
      reads `tasks, `kept, kept
    {
      map id | id in tasks :: tasks[id].View()
    }

    ghost function View(): EngineState
      requires walLogger.Valid() && Holds()
      reads this, kept, walLogger, walLogger.buffer
    {
      EngineState(Views(), workflowTasks, sequenceCounter, walLogger.View())
    }

    /** No two ids share a task object, because each task knows its id. */
    ghost predicate Valid()
      reads this, kept, walLogger, walLogger.buffer
    {
      && walLogger.Valid() && Holds()
      && forall id :: id in tasks ==> tasks[id].id == id
    }

    constructor (walLogger: InMemoryLogger, partitionMgr: DefaultManager)
      requires walLogger.Valid()
      ensures this.walLogger == walLogger && this.partitionMgr == partitionMgr
      ensures Valid() && View() == EngineOn(walLogger.View()) && tasks == map[]
    {
      this.walLogger, this.partitionMgr := walLogger, partitionMgr;
      tasks, workflowTasks, sequenceCounter, kept := map[], map[], 0, {};
    }

    /** Append through the Logger interface, which may refuse. */
    method Persist(draft: Entry, now: int, storageUp: bool) returns (answer: Result<nat>)
      requires Valid()
      modifies walLogger, walLogger.buffer
      ensures Valid() && (walLogger.buffer == old(walLogger.buffer) || fresh(walLogger.buffer))
      ensures var expected := Persisted(old(View()).log, draft, now, storageUp);
              View() == old(View()).(log := expected.log) && answer == expected.answer
    {
      if !storageUp {
        return Failure(StorageFailed);
      }
      ghost var views := Views();
      answer := walLogger.Append(draft, now);
      assert Views() == views;
    }

    method Insert(t: Task, number: nat)
      requires Valid()
      modifies `tasks, `workflowTasks, `sequenceCounter, `kept
      ensures Valid() && tasks == old(tasks)[t.id := t] && kept == old(kept) + {t}
      ensures Views() == old(Views())[t.id := t.View()]
      ensures workflowTasks == Enlist(old(workflowTasks), t.workflowId, t.id) && sequenceCounter == number
    {
      ghost var views := Views();
      tasks, kept := tasks[t.id := t], kept + {t};
      assert Views() == views[t.id := t.View()];
      workflowTasks := Enlist(workflowTasks, t.workflowId, t.id);
      sequenceCounter := number;
    }

    /** The second half of CreateTask: the log first, the maps after. */
    method LogAndInsert(t: Task, env: Env) returns (answer: Result<()>)
      requires Valid()
      modifies this, walLogger, walLogger.buffer
      ensures Valid() && (walLogger.buffer == old(walLogger.buffer) || fresh(walLogger.buffer))
      ensures var expected := Enter(old(View()), t.View(), env);
              View() == expected.state &&
              if expected.answer.Success? then answer.Success? else answer == Failure(expected.answer.error)
      ensures tasks == if answer.Success? then old(tasks)[t.id := t] else old(tasks)
      ensures old(kept) <= kept <= old(kept) + {t}
    {
      var number := Persist(Draft(t.id, t.workflowId, Pending, t.payload), env.t2, env.storageUp);
      if number.Failure? {
        answer := Failure(number.error);
      } else {
        Insert(t, number.value);
        answer := Success(());
      }
    }

    /** Returns the object the engine keeps, not a copy. */
    method CreateTask(workflowId: string, name: string, payload: Bytes, env: Env) returns (answer: Result<Task>)
      requires Valid()
      modifies this, walLogger, walLogger.buffer
      ensures Valid() && (walLogger.buffer == old(walLogger.buffer) || fresh(walLogger.buffer))
      ensures var expected := CreateReply(partitionMgr.Cfg(), old(View()), workflowId, name, payload, env);
              View() == expected.state && Agrees(answer, expected.answer)
      ensures answer.Success? ==> fresh(answer.value) && tasks == old(tasks)[answer.value.id := answer.value]
      ensures answer.Success? ==>
                && answer.value.workflowId == workflowId && answer.value.name == name
                && answer.value.payload == payload && answer.value.state == Pending
      ensures answer.Failure? ==> tasks == old(tasks)
      ensures kept >= old(kept) && fresh(kept - old(kept))
    {
      if workflowId == "" {
        return Failure(MissingWorkflowId);
      }
      if name == "" {
        return Failure(MissingTaskName);
      }
      ghost var s := View();
      var newTask := new Task(TaskId.Make(workflowId, env.t0), workflowId, name, payload, env.t1);
      var partition := partitionMgr.AssignPartition(newTask.id);
      if partition.Failure? {
        assert View() == s;
        return Failure(partition.error);
      }
      newTask.partitionId := partition.value;
      assert View() == s;
      var entered := LogAndInsert(newTask, env);
      answer := if entered.Failure? then Failure(entered.error) else Success(newTask);
    }

    /** Write one task object; the others keep their fields because none of them shares its id. */
    lemma OnlyOneChanged(id: string, before: map<string, TaskView>)
      requires Valid() && id in tasks
      requires before.Keys == tasks.Keys
      requires forall other :: other in tasks && other != id ==> tasks[other].View() == before[other]
      ensures Views() == before[id := tasks[id].View()]
    {
    }

    /** Move one task object after the log has accepted the move. */
    method Move(t: Task, newState: State, number: nat, env: Env)
      requires Valid() && t.id in tasks && tasks[t.id] == t
      requires Allowed(t.state, newState)
      modifies `sequenceCounter, t
      ensures Valid()
      ensures t.id == old(t.id) && t.View() == Transitioned(old(t.View()), newState, env.t1, env.t2).value
      ensures View() == old(View()).(tasks := old(Views())[t.id := t.View()], counter := number)
    {
      ghost var views := Views();
      sequenceCounter := number;
      var moved := t.TransitionTo(newState, env.t1, env.t2);
      // The source returns the error of this second check; it cannot fail.
      assert moved.Success?;
      OnlyOneChanged(t.id, views);
    }

    method MoveAndCopy(t: Task, newState: State, number: nat, env: Env) returns (copy: Task)
      requires Valid() && t.id in tasks && tasks[t.id] == t
      requires Allowed(t.state, newState)
      modifies `sequenceCounter, t
      ensures Valid() && fresh(copy)
      ensures copy.View() == Transitioned(old(t.View()), newState, env.t1, env.t2).value
      ensures View() == old(View()).(tasks := old(Views())[old(t.id) := copy.View()], counter := number)
    {
      Move(t, newState, number, env);
      copy := t.Copy();
    }

    /**
     * What TransitionTask, CompleteTask and FailTask do once the task may move: log, move, count, copy.
     * `s` is the engine before the caller stored a result or an error in the task.
     */
    method LogAndMove(t: Task, newState: State, data: Bytes, env: Env, ghost s: EngineState)
      returns (answer: Result<Task>)
      requires Valid() && t.id in tasks && tasks[t.id] == t
      requires Allowed(t.state, newState)
      requires View() == s.(tasks := s.tasks[t.id := t.View()])
      modifies `sequenceCounter, walLogger, walLogger.buffer, t
      ensures Valid() && (walLogger.buffer == old(walLogger.buffer) || fresh(walLogger.buffer))
      ensures var expected := Record(s, old(t.id), old(t.View()), newState, data, env);
              View() == expected.state && Agrees(answer, expected.answer)
      ensures answer.Success? ==> fresh(answer.value)
    {
      var number := Persist(Draft(t.id, t.workflowId, newState, data), env.t0, env.storageUp);
      if number.Failure? {
        return Failure(number.error);
      }
      var copy := MoveAndCopy(t, newState, number.value, env);
      return Success(copy);
    }

    method TransitionTask(id: string, newState: State, env: Env) returns (answer: Result<Task>)
      requires Valid()
      modifies `sequenceCounter, walLogger, walLogger.buffer, if id in tasks then {tasks[id]} else {}
      ensures Valid() && (walLogger.buffer == old(walLogger.buffer) || fresh(walLogger.buffer))
      ensures var expected := TransitionReply(old(View()), id, newState, env);
              View() == expected.state && Agrees(answer, expected.answer)
      ensures answer.Success? ==> fresh(answer.value)
    {
      if id == "" {
        return Failure(MissingTaskId);
      }
      if id !in tasks {
        return Failure(TaskNotFound);
      }
      var t := tasks[id];
      var check := CanTransition(t.state, newState);
      if check.Failure? {
        return Failure(check.error);
      }
      ghost var s := View();
      assert s.tasks[id := t.View()] == s.tasks;
      answer := LogAndMove(t, newState, t.payload, env, s);
    }

    /** The result is stored before the log is written, so a refused write leaves it behind. */
    method CompleteTask(id: string, result: Bytes, env: Env) returns (answer: Result<Task>)
      requires Valid()
      modifies `sequenceCounter, walLogger, walLogger.buffer, if id in tasks then {tasks[id]} else {}
      ensures Valid() && (walLogger.buffer == old(walLogger.buffer) || fresh(walLogger.buffer))
      ensures var expected := CompleteReply(old(View()), id, result, env);
              View() == expected.state && Agrees(answer, expected.answer)
      ensures answer.Success? ==> fresh(answer.value)
    {
      if id == "" {
        return Failure(MissingTaskId);
      }
      if id !in tasks {
        return Failure(TaskNotFound);
      }
      var t := tasks[id];
      if t.state != Dispatched {
        return Failure(NotDispatched);
      }
      ghost var s := View();
      t.result := result;
      OnlyOneChanged(id, s.tasks);
      answer := LogAndMove(t, Completed, result, env, s);
    }

    /** The error is stored before the log is written, like the result above. */
    method FailTask(id: string, message: Bytes, env: Env) returns (answer: Result<Task>)
      requires Valid()
      modifies `sequenceCounter, walLogger, walLogger.buffer, if id in tasks then {tasks[id]} else {}
      ensures Valid() && (walLogger.buffer == old(walLogger.buffer) || fresh(walLogger.buffer))
      ensures var expected := FailReply(old(View()), id, message, env);
              View() == expected.state && Agrees(answer, expected.answer)
      ensures answer.Success? ==> fresh(answer.value)
    {
      if id == "" {
        return Failure(MissingTaskId);
      }
      if id !in tasks {
        return Failure(TaskNotFound);
      }
      var t := tasks[id];
      if t.state != Dispatched {
        return Failure(NotDispatched);
      }
      ghost var s := View();
      t.error := message;
      OnlyOneChanged(id, s.tasks);
      answer := LogAndMove(t, Failed, message, env, s);
    }

    method Checkpoint(upTo: nat) returns (answer: Result<()>)
      requires Valid()
      modifies walLogger`committed
      ensures Valid()
      ensures answer == CheckpointAt(old(View()).log, upTo).1
      ensures View() == Step(partitionMgr.Cfg(), old(View()), Op.Checkpoint(upTo))
    {
      answer := walLogger.Checkpoint(upTo);
    }

    method GetSequenceCounter() returns (number: nat)
      requires Valid()
      ensures number == View().counter
    {
      number := sequenceCounter;
    }

    method Close()
      requires Valid()
      modifies walLogger`buffer, walLogger`len
      ensures Valid() && fresh(walLogger.buffer)
      ensures View() == Step(partitionMgr.Cfg(), old(View()), Op.Close)
    {
      walLogger.Close();
    }

    // -------------------------------------------------------------- what calls do to the objects

    /** The engine holds this very object. */
    ghost predicate Holding(t: Task)
      reads `tasks, t
    {
      t.id in tasks && tasks[t.id] == t
    }

    /** The object went along with the calls made since the engine `s`. */
    ghost predicate Follows(t: Task, held: bool, was: TaskView, s: EngineState, ops: seq<Op>)
      reads `tasks, t
    {
      Followed(partitionMgr.Cfg(), s, ops, held, was, Holding(t), t.View())
    }

    /** What one call made of a task object, which an overwriting create puts out of reach. */
    ghost predicate Survives(t: Task, held: bool, was: TaskView, remade: bool)
      reads `tasks, t
    {
      t.id == was.id && (Holding(t) <==> held && !remade) && (!Holding(t) ==> t.View() == was)
    }

    method ExecuteCreate(op: Op)
      requires Valid() && op.Create?
      modifies this, walLogger, walLogger.buffer
      ensures Valid() && (walLogger.buffer == old(walLogger.buffer) || fresh(walLogger.buffer))
      ensures kept >= old(kept) && fresh(kept - old(kept))
      ensures View() == Step(partitionMgr.Cfg(), old(View()), op)
      ensures forall t :: t in old(kept) ==>
                Survives(t, old(Holding(t)), old(t.View()), Remakes(partitionMgr.Cfg(), old(View()), op, t.id))
    {
      var answer := CreateTask(op.workflowId, op.name, op.payload, op.env);
    }

    /** A call that moves a task writes at most that task and the log. */
    method ExecuteMove(op: Op)
      requires Valid() && (op.Transition? || op.Complete? || op.Fail?)
      modifies `sequenceCounter, walLogger, walLogger.buffer, if op.id in tasks then {tasks[op.id]} else {}
      ensures Valid() && (walLogger.buffer == old(walLogger.buffer) || fresh(walLogger.buffer))
      ensures View() == Step(partitionMgr.Cfg(), old(View()), op)
      ensures forall t :: t in old(kept) ==> Survives(t, old(Holding(t)), old(t.View()), false)
    {
      match op {
        case Transition(id, newState, env) => var _ := TransitionTask(id, newState, env);
        case Complete(id, result, env) => var _ := CompleteTask(id, result, env);
        case Fail(id, message, env) => var _ := FailTask(id, message, env);
      }
      forall t | t in old(kept)
        ensures Survives(t, old(Holding(t)), old(t.View()), false)
      {
        assert old(Holding(t)) ==> t.id in old(tasks);
      }
    }

    method ExecuteOnLog(op: Op)
      requires Valid() && (op.Checkpoint? || op.Close?)
      modifies walLogger`buffer, walLogger`len, walLogger`committed
      ensures Valid() && (walLogger.buffer == old(walLogger.buffer) || fresh(walLogger.buffer))
      ensures View() == Step(partitionMgr.Cfg(), old(View()), op)
    {
      match op {
        case Checkpoint(upTo) => var _ := Checkpoint(upTo);
        case Close => Close();
      }
    }

    /** One call by some client. */
    method Execute(op: Op)
      requires Valid()
      modifies this, walLogger, walLogger.buffer, kept
      ensures Valid() && (walLogger.buffer == old(walLogger.buffer) || fresh(walLogger.buffer))
      ensures kept >= old(kept) && fresh(kept - old(kept))
      ensures View() == Step(partitionMgr.Cfg(), old(View()), op)
      ensures forall t :: t in old(kept) ==> Follows(t, old(Holding(t)), old(t.View()), old(View()), [op])
    {
      ghost var s := View();
      if op.Create? {
        ExecuteCreate(op);
      } else if op.Checkpoint? || op.Close? {
        ExecuteOnLog(op);
      } else {
        ExecuteMove(op);
      }
      forall t | t in old(kept)
        ensures Follows(t, old(Holding(t)), old(t.View()), s, [op])
      {
        FollowedOneCall(partitionMgr.Cfg(), s, op, old(Holding(t)), old(t.View()), Holding(t), t.View());
      }
    }

    /** Any calls by any clients, one after the other: the lock lets no two of them overlap. */
    method ExecuteAll(ops: seq<Op>)
      requires Valid()
      modifies this, walLogger, walLogger.buffer, kept
      ensures Valid() && (walLogger.buffer == old(walLogger.buffer) || fresh(walLogger.buffer))
      ensures kept >= old(kept) && fresh(kept - old(kept))
      ensures View() == Run(partitionMgr.Cfg(), old(View()), ops)
      ensures forall t :: t in old(kept) ==> Follows(t, old(Holding(t)), old(t.View()), old(View()), ops)
    {
      ghost var s := View();
      forall t | t in kept
        ensures Follows(t, Holding(t), t.View(), s, [])
      {
        FollowedNowhere(partitionMgr.Cfg(), s, Holding(t), t.View());
      }
      for i := 0 to |ops|
        invariant Valid() && (walLogger.buffer == old(walLogger.buffer) || fresh(walLogger.buffer))
        invariant kept >= old(kept) && fresh(kept - old(kept))
        invariant View() == Run(partitionMgr.Cfg(), s, ops[..i])
        invariant forall t :: t in old(kept) ==> Follows(t, old(Holding(t)), old(t.View()), s, ops[..i])
      {
        assert ops[..i + 1][..i] == ops[..i] && ops[..i + 1] == ops[..i] + [ops[i]];
        label Before:
        Execute(ops[i]);
        forall t | t in old(kept)
          ensures Follows(t, old(Holding(t)), old(t.View()), s, ops[..i + 1])
        {
          FollowedBoth(partitionMgr.Cfg(), s, ops[..i], [ops[i]], old(Holding(t)), old(t.View()),
                       old@Before(Holding(t)), old@Before(t.View()), Holding(t), t.View());
        }
      }
      assert ops[..|ops|] == ops;
    }

    // -------------------------------------------------------------- one task

    /** The object of a task is copied with the lock free, after the `calls` of other clients. */
    method FollowAndCopy(id: string, calls: seq<Op>) returns (copy: Task)
      requires Valid() && id in tasks
      modifies this, walLogger, walLogger.buffer, kept
      ensures Valid() && (walLogger.buffer == old(walLogger.buffer) || fresh(walLogger.buffer))
      ensures kept >= old(kept) && fresh(kept - old(kept))
      ensures View() == Run(partitionMgr.Cfg(), old(View()), calls)
      ensures fresh(copy) && copy !in kept
      ensures copy.View() == Follow(partitionMgr.Cfg(), old(View()), calls, id)
    {
      var t := tasks[id];
      assert Holding(t);
      ExecuteAll(calls);
      assert View() == Run(partitionMgr.Cfg(), old(View()), calls);
      copy := t.Copy();
    }

    /** The object is looked up under the lock and copied after it is released; `others` is what comes in between. */
    method GetTask(id: string, others: seq<Op>) returns (answer: Result<Task>)
      requires Valid()
      modifies this, walLogger, walLogger.buffer, kept
      ensures Valid() && (walLogger.buffer == old(walLogger.buffer) || fresh(walLogger.buffer))
      ensures kept >= old(kept) && fresh(kept - old(kept))
      ensures match GetReply(old(View()), id)
              case Failure(error) => answer == Failure(error) && View() == old(View())
              case Success(_) =>
                && View() == Run(partitionMgr.Cfg(), old(View()), others)
                && answer.Success? && fresh(answer.value) && answer.value !in kept
                && answer.value.View() == Follow(partitionMgr.Cfg(), old(View()), others, id)
    {
      if id == "" {
        return Failure(MissingTaskId);
      }
      if id !in tasks {
        return Failure(TaskNotFound);
      }
      var copy := FollowAndCopy(id, others);
      return Success(copy);
    }

    // -------------------------------------------------------------- several tasks at once

    ghost predicate TracksOne(t: Task, id: string, s: EngineState, calls: seq<Op>)
      reads `kept, `tasks, t
    {
      t in kept && t.id == id && id in s.tasks && Follows(t, true, s.tasks[id], s, calls)
    }

    /** The engine holds or held each object under its id when it was `s`, and has made n turns since. */
    ghost predicate Tracks(objects: seq<Task>, ids: seq<string>, others: nat -> seq<Op>, s: EngineState, n: nat)
      reads this, kept, walLogger, walLogger.buffer, objects
    {
      && Valid() && |objects| == |ids|
      && View() == Run(partitionMgr.Cfg(), s, Turns(others, n))
      && forall j :: 0 <= j < |ids| ==> TracksOne(objects[j], ids[j], s, Turns(others, n))
    }

    /** The other clients take turn n, counted from the engine `s` whose objects are followed. */
    method TrackTurn(objects: seq<Task>, ghost ids: seq<string>, others: nat -> seq<Op>, n: nat, ghost s: EngineState)
      requires Tracks(objects, ids, others, s, n)
      modifies this, walLogger, walLogger.buffer, kept
      ensures Tracks(objects, ids, others, s, n + 1)
      ensures (walLogger.buffer == old(walLogger.buffer) || fresh(walLogger.buffer))
      ensures kept >= old(kept) && fresh(kept - old(kept))
    {
      ExecuteAll(others(n));
      RunConcat(partitionMgr.Cfg(), s, Turns(others, n), others(n));
      forall j | 0 <= j < |ids|
        ensures Follows(objects[j], true, s.tasks[ids[j]], s, Turns(others, n + 1))
      {
        var t := objects[j];
        FollowedBoth(partitionMgr.Cfg(), s, Turns(others, n), others(n), true, s.tasks[ids[j]],
                     old(Holding(t)), old(t.View()), Holding(t), t.View());
      }
    }

    /** The first n objects are copied to `result`, each after one more turn of the others. */
    ghost predicate CopiedSoFar(objects: seq<Task>, ids: seq<string>, others: nat -> seq<Op>, s: EngineState, n: nat,
                                result: seq<Task>, found: seq<TaskView>)
      reads this, kept, walLogger, walLogger.buffer, objects, result
    {
      && Tracks(objects, ids, others, s, n) && n <= |ids|
      && found == FollowEach(partitionMgr.Cfg(), s, others, ids, n)
      && |found| == n && Copies(result, found, kept)
    }

    lemma NothingCopied(objects: seq<Task>, ids: seq<string>, others: nat -> seq<Op>)
      requires Valid() && |objects| == |ids|
      requires forall j :: 0 <= j < |ids| ==> ids[j] in tasks && objects[j] == tasks[ids[j]]
      ensures CopiedSoFar(objects, ids, others, View(), 0, [], [])
    {
      forall j | 0 <= j < |ids|
        ensures Follows(objects[j], true, View().tasks[ids[j]], View(), [])
      {
        FollowedNowhere(partitionMgr.Cfg(), View(), true, View().tasks[ids[j]]);
      }
    }

    method TurnThenCopy(objects: seq<Task>, ghost ids: seq<string>, others: nat -> seq<Op>, n: nat,
                        ghost s: EngineState)
      returns (copy: Task)
      requires Tracks(objects, ids, others, s, n) && n < |ids|
      modifies this, walLogger, walLogger.buffer, kept
      ensures Tracks(objects, ids, others, s, n + 1)
      ensures (walLogger.buffer == old(walLogger.buffer) || fresh(walLogger.buffer))
      ensures kept >= old(kept) && fresh(kept - old(kept))
      ensures fresh(copy) && copy !in kept
      ensures copy.View() == Follow(partitionMgr.Cfg(), s, Turns(others, n + 1), ids[n])
    {
      TrackTurn(objects, ids, others, n, s);
      copy := objects[n].Copy();
    }

    /** The others take a turn, and the next object is copied. */
    method CopyOneMore(objects: seq<Task>, ghost ids: seq<string>, others: nat -> seq<Op>, n: nat, result: seq<Task>,
                       ghost s: EngineState, ghost found: seq<TaskView>)
      returns (copy: Task)
      requires CopiedSoFar(objects, ids, others, s, n, result, found) && n < |ids|
      modifies this, walLogger, walLogger.buffer, kept
      ensures CopiedSoFar(objects, ids, others, s, n + 1, result + [copy], found + [copy.View()])
      ensures (walLogger.buffer == old(walLogger.buffer) || fresh(walLogger.buffer))
      ensures kept >= old(kept) && fresh(kept - old(kept)) && fresh(copy)
    {
      copy := TurnThenCopy(objects, ids, others, n, s);
      CopiesOneMore(result, found, kept, copy);
    }

    method Append(objects: seq<Task>, ghost ids: seq<string>, others: nat -> seq<Op>, n: nat, before: seq<Task>,
                  ghost s: EngineState, ghost foundBefore: seq<TaskView>)
      returns (result: seq<Task>, ghost found: seq<TaskView>)
      requires CopiedSoFar(objects, ids, others, s, n, before, foundBefore) && n < |ids|
      modifies this, walLogger, walLogger.buffer, kept
      ensures CopiedSoFar(objects, ids, others, s, n + 1, result, found)
      ensures (walLogger.buffer == old(walLogger.buffer) || fresh(walLogger.buffer))
      ensures kept >= old(kept) && fresh(kept - old(kept))
      ensures forall t :: t in result ==> t in before || fresh(t)
    {
      var copy := CopyOneMore(objects, ids, others, n, before, s, foundBefore);
      result, found := before + [copy], foundBefore + [copy.View()];
    }

    /**
     * Copies the objects one by one with the lock free; `others(i)` is what the other clients do before the i-th
     * copy.
     */
    method CopyEach(objects: seq<Task>, ghost ids: seq<string>, others: nat -> seq<Op>, ghost s: EngineState)
      returns (result: seq<Task>, ghost found: seq<TaskView>)
      requires CopiedSoFar(objects, ids, others, s, 0, [], [])
      modifies this, walLogger, walLogger.buffer, kept
      ensures CopiedSoFar(objects, ids, others, s, |objects|, result, found)
      ensures forall t :: t in result ==> fresh(t)
    {
      result, found := [], [];
      for n := 0 to |objects|
        invariant CopiedSoFar(objects, ids, others, s, n, result, found)
        invariant (walLogger.buffer == old(walLogger.buffer) || fresh(walLogger.buffer))
        invariant fresh(kept - old(kept))
        invariant forall t :: t in result ==> fresh(t)
      {
        ghost var before := kept;
        result, found := Append(objects, ids, others, n, result, s, found);
        assert kept - old(kept) <= (kept - before) + (before - old(kept));
      }
    }

    /** What was collected under the lock is copied after it is released. */
    method CopySelected(objects: seq<Task>, ghost ids: seq<string>, others: nat -> seq<Op>)
      returns (result: seq<Task>, ghost found: seq<TaskView>)
      requires Valid() && |objects| == |ids|
      requires forall i :: 0 <= i < |ids| ==> ids[i] in tasks && objects[i] == tasks[ids[i]]
      modifies this, walLogger, walLogger.buffer, kept
      ensures Valid() && View() == Run(partitionMgr.Cfg(), old(View()), Turns(others, |ids|))
      ensures found == FollowEach(partitionMgr.Cfg(), old(View()), others, ids, |ids|)
      ensures |result| == |ids| && Copies(result, found, kept) && forall t :: t in result ==> fresh(t)
      ensures forall i :: 0 <= i < |ids| ==> result[i].id == ids[i]
    {
      NothingCopied(objects, ids, others);
      FollowEachIds(partitionMgr.Cfg(), View(), others, ids);
      result, found := CopyEach(objects, ids, others, View());
    }

    /**
     * The tasks in the state, in the order `ids` in which the map yields them, are collected under the lock and
     * copied after it is released.
     */
    method GetTasksByState(state: State, others: nat -> seq<Op>)
      returns (result: seq<Task>, ghost ids: seq<string>, ghost found: seq<TaskView>)
      requires Valid()
      modifies this, walLogger, walLogger.buffer, kept
      ensures Enumerates(ids, set id | id in old(View()).tasks && old(View()).tasks[id].state == state)
      ensures Valid() && View() == Run(partitionMgr.Cfg(), old(View()), Turns(others, |ids|))
      ensures found == FollowEach(partitionMgr.Cfg(), old(View()), others, ids, |ids|)
      ensures |result| == |ids| && Copies(result, found, kept) && forall t :: t in result ==> fresh(t)
      ensures forall i :: 0 <= i < |ids| ==> result[i].id == ids[i]
    {
      ids := [];
      var selected: seq<Task> := [];
      var rest := tasks.Keys;
      while rest != {}
        invariant rest <= tasks.Keys
        invariant Enumerates(ids, set id | id in tasks && id !in rest && tasks[id].state == state)
        invariant |selected| == |ids| && forall i :: 0 <= i < |ids| ==> selected[i] == tasks[ids[i]]
        decreases rest
      {
        var id :| id in rest;
        rest := rest - {id};
        if tasks[id].state == state {
          selected := selected + [tasks[id]];
          ids := ids + [id];
        }
      }
      assert (set id | id in tasks && id !in rest && tasks[id].state == state)
          == (set id | id in View().tasks && View().tasks[id].state == state);
      result, found := CopySelected(selected, ids, others);
    }

    /** The same for the tasks of a partition. */
    method GetTasksForPartition(partitionId: int, others: nat -> seq<Op>)
      returns (result: seq<Task>, ghost ids: seq<string>, ghost found: seq<TaskView>)
      requires Valid()
      modifies this, walLogger, walLogger.buffer, kept
      ensures Enumerates(ids, set id | id in old(View()).tasks && old(View()).tasks[id].partitionId == partitionId)
      ensures Valid() && View() == Run(partitionMgr.Cfg(), old(View()), Turns(others, |ids|))
      ensures found == FollowEach(partitionMgr.Cfg(), old(View()), others, ids, |ids|)
      ensures |result| == |ids| && Copies(result, found, kept) && forall t :: t in result ==> fresh(t)
      ensures forall i :: 0 <= i < |ids| ==> result[i].id == ids[i]
    {
      ids := [];
      var selected: seq<Task> := [];
      var rest := tasks.Keys;
      while rest != {}
        invariant rest <= tasks.Keys
        invariant Enumerates(ids, set id | id in tasks && id !in rest && tasks[id].partitionId == partitionId)
        invariant |selected| == |ids| && forall i :: 0 <= i < |ids| ==> selected[i] == tasks[ids[i]]
        decreases rest
      {
        var id :| id in rest;
        rest := rest - {id};
        if tasks[id].partitionId == partitionId {
          selected := selected + [tasks[id]];
          ids := ids + [id];
        }
      }
      assert (set id | id in tasks && id !in rest && tasks[id].partitionId == partitionId)
          == (set id | id in View().tasks && View().tasks[id].partitionId == partitionId);
      result, found := CopySelected(selected, ids, others);
    }

    /** `result` holds what was found of the first n ids, and the other clients have had n rounds since `s`. */
    ghost predicate ReadSoFar(ids: seq<string>, others: nat -> Round, s: EngineState, n: nat,
                              result: seq<Task>, found: seq<TaskView>)
      reads this, kept, walLogger, walLogger.buffer, result
    {
      && Valid() && View() == Run(partitionMgr.Cfg(), s, Rounds(others, n))
      && n <= |ids| && (forall i :: 0 <= i < |ids| ==> ids[i] in s.tasks)
      && found == LookupEach(partitionMgr.Cfg(), s, others, ids, n)
      && |found| == n && Copies(result, found, kept)
    }

    /** The others make their calls, the task is looked up, they make more, and the object found is copied. */
    method LookupThenCopy(id: string, others: nat -> Round, i: nat, ghost s: EngineState) returns (copy: Task)
      requires Valid() && id in s.tasks && View() == Run(partitionMgr.Cfg(), s, Rounds(others, i))
      modifies this, walLogger, walLogger.buffer, kept
      ensures Valid() && View() == Run(partitionMgr.Cfg(), s, Rounds(others, i + 1))
      ensures (walLogger.buffer == old(walLogger.buffer) || fresh(walLogger.buffer))
      ensures kept >= old(kept) && fresh(kept - old(kept))
      ensures fresh(copy) && copy !in kept
      ensures copy.View() == LookupAfter(partitionMgr.Cfg(), s, others, i, id)
    {
      ghost var calls := Rounds(others, i) + others(i).first;
      RunKeepsTasks(partitionMgr.Cfg(), s, calls);
      ExecuteAll(others(i).first);
      RunConcat(partitionMgr.Cfg(), s, Rounds(others, i), others(i).first);
      copy := FollowAndCopy(id, others(i).second);
      RunConcat(partitionMgr.Cfg(), s, calls, others(i).second);
    }

    method ReadNext(ids: seq<string>, others: nat -> Round, n: nat, before: seq<Task>,
                    ghost s: EngineState, ghost foundBefore: seq<TaskView>)
      returns (result: seq<Task>, ghost found: seq<TaskView>)
      requires ReadSoFar(ids, others, s, n, before, foundBefore) && n < |ids|
      modifies this, walLogger, walLogger.buffer, kept
      ensures ReadSoFar(ids, others, s, n + 1, result, found)
      ensures (walLogger.buffer == old(walLogger.buffer) || fresh(walLogger.buffer))
      ensures kept >= old(kept) && fresh(kept - old(kept))
      ensures forall t :: t in result ==> t in before || fresh(t)
    {
      var copy := LookupThenCopy(ids[n], others, n, s);
      CopiesOneMore(before, foundBefore, kept, copy);
      result, found := before + [copy], foundBefore + [copy.View()];
    }

    lemma NothingRead(ids: seq<string>, others: nat -> Round)
      requires Valid() && forall i :: 0 <= i < |ids| ==> ids[i] in View().tasks
      ensures ReadSoFar(ids, others, View(), 0, [], [])
    {
    }

    /** Reads the tasks of `ids` one by one; the others make calls before each lookup and before each copy. */
    method ReadEach(ids: seq<string>, others: nat -> Round, ghost s: EngineState)
      returns (result: seq<Task>, ghost found: seq<TaskView>)
      requires ReadSoFar(ids, others, s, 0, [], [])
      modifies this, walLogger, walLogger.buffer, kept
      ensures ReadSoFar(ids, others, s, |ids|, result, found)
      ensures forall t :: t in result ==> fresh(t)
    {
      result, found := [], [];
      for n := 0 to |ids|
        invariant ReadSoFar(ids, others, s, n, result, found)
        invariant (walLogger.buffer == old(walLogger.buffer) || fresh(walLogger.buffer))
        invariant fresh(kept - old(kept))
        invariant forall t :: t in result ==> fresh(t)
      {
        ghost var before := kept;
        result, found := ReadNext(ids, others, n, result, s, found);
        assert kept - old(kept) <= (kept - before) + (before - old(kept));
      }
    }

    /**
     * The ids are read under one lock, each task is looked up under a lock of its own and copied after that is
     * released; `others(i)` is what the other clients call before the i-th lookup and before the i-th copy. The lookup
     * never misses.
     */
    method GetWorkflowTasks(workflowId: string, others: nat -> Round)
      returns (answer: Result<seq<Task>>, ghost found: seq<TaskView>)
      requires Valid() && Indexed(View())
      modifies this, walLogger, walLogger.buffer, kept
      ensures Valid()
      ensures answer.Failure? <==> workflowId == ""
      ensures answer.Failure? ==> answer.error == MissingWorkflowId && View() == old(View())
      ensures answer.Success? ==>
                var ids := TasksOf(old(View()).workflowTasks, workflowId);
                && ReadSoFar(ids, others, old(View()), |ids|, answer.value, found)
                && (forall t :: t in answer.value ==> fresh(t))
                && |answer.value| == |ids| && forall i :: 0 <= i < |ids| ==> answer.value[i].id == ids[i]
    {
      found := [];
      if workflowId == "" {
        answer := Failure(MissingWorkflowId);
      } else if workflowId !in workflowTasks {
        answer := Success([]);
      } else {
        var result;
        NothingRead(workflowTasks[workflowId], others);
        LookupEachIds(partitionMgr.Cfg(), View(), others, workflowTasks[workflowId]);
        result, found := ReadEach(workflowTasks[workflowId], others, View());
        answer := Success(result);
      }
    }
  }

  // ---------------------------------------------------------------- what a client's writes reach

  /** A client gives an object it was handed any fields it likes. */
  method Overwrite(c: Task, v: TaskView)
    modifies c
    ensures c.View() == v
  {
    c.id, c.workflowId, c.name, c.state := v.id, v.workflowId, v.name, v.state;
    c.payload, c.result, c.error := v.payload, v.result, v.error;
    c.partitionId, c.attempts, c.maxAttempts := v.partitionId, v.attempts, v.maxAttempts;
    c.createdAt, c.updatedAt, c.dispatchedAt, c.completedAt := v.createdAt, v.updatedAt, v.dispatchedAt, v.completedAt;
  }

  /**
   * A write to any object reaches the engine exactly when the engine holds that object and the write changes it; an
   * object the engine never stored, or one that a create has overwritten, is out of reach.
   */
  method Write(e: Engine, c: Task, v: TaskView)
    requires e.Valid()
    modifies c
    ensures c.View() == v && e.walLogger.Valid() && e.Holds()
    ensures e.View() == old(e.View()) <==> !old(e.Holding(c)) || v == old(c.View())
    ensures !old(e.Holding(c)) ==> e.Valid()
  {
    ghost var s, held, was := e.View(), e.Holding(c), c.View();
    Overwrite(c, v);
    if held {
      assert e.View().tasks[was.id] == v && s.tasks[was.id] == was;
      if v == was {
        assert e.Views() == s.tasks;
      }
    } else {
      assert forall id :: id in e.tasks ==> e.tasks[id] != c;
      assert e.Views() == s.tasks;
    }
  }

  /** So what GetTask answers, and likewise every other copy, is the client's own. */
  method WriteToAnswer(e: Engine, id: string, others: seq<Op>, v: TaskView) returns (answer: Result<Task>)
    requires e.Valid()
    modifies e, e.walLogger, e.walLogger.buffer, e.kept
    ensures e.Valid()
    ensures answer.Success? <==> GetReply(old(e.View()), id).Success?
    ensures e.View() == if answer.Success? then Run(e.partitionMgr.Cfg(), old(e.View()), others) else old(e.View())
    ensures answer.Success? ==> fresh(answer.value) && answer.value.View() == v
  {
    answer := e.GetTask(id, others);
    if answer.Success? {
      Write(e, answer.value, v);
    }
  }

  method WriteState(e: Engine, t: Task, state: State)
    requires e.Valid() && e.Holding(t)
    modifies t
    ensures e.Valid() && t.id == old(t.id)
    ensures e.View() == old(e.View()).(tasks := old(e.View()).tasks[t.id := old(t.View()).(state := state)])
  {
    ghost var views := e.Views();
    t.state := state;
    e.OnlyOneChanged(t.id, views);
  }

  /** A write to the object CreateTask answers does: the task changes state past the table and past the log. */
  method WriteToCreated(e: Engine, workflowId: string, name: string, payload: Bytes, env: Env, state: State)
    returns (answer: Result<Task>)
    requires e.Valid()
    modifies e, e.walLogger, e.walLogger.buffer
    ensures e.Valid()
    ensures var expected := CreateReply(e.partitionMgr.Cfg(), old(e.View()), workflowId, name, payload, env);
            && (answer.Success? <==> expected.answer.Success?)
            && e.View() == if answer.Failure? then expected.state else
                             var t := expected.answer.value;
                             expected.state.(tasks := expected.state.tasks[t.id := t.(state := state)])
  {
    answer := e.CreateTask(workflowId, name, payload, env);
    if answer.Success? {
      WriteState(e, answer.value, state);
    }
  }

  /** `result` holds the values of `found` in objects of its own. */
  ghost predicate Copies(result: seq<Task>, found: seq<TaskView>, kept: set<Task>)
    reads result
  {
    && |result| == |found|
    && (forall j :: 0 <= j < |result| ==> result[j].View() == found[j])
    && (forall t :: t in result ==> t !in kept)
  }

  lemma CopiesOneMore(result: seq<Task>, found: seq<TaskView>, kept: set<Task>, copy: Task)
    requires Copies(result, found, kept) && copy !in kept
    ensures Copies(result + [copy], found + [copy.View()], kept)
  {
  }

  /** The object answered has the fields the specification answers. */
  ghost predicate Agrees(answer: Result<Task>, expected: Result<TaskView>)
    reads if answer.Success? then {answer.value} else {}
  {
    match (answer, expected)
    case (Success(t), Success(v)) => t.View() == v
    case (Failure(e), Failure(f)) => e == f
    case _ => false
  }
}
