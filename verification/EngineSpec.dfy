/** The engine as a step function on values (internal/executor/executor.go). */
module EngineSpec {
  import opened Results
  import opened TaskState
  import opened Tasks
  import opened Wal
  import opened Partition
  import TaskId

  /**
   * What a call gets from outside: three clock readings, in the order the call takes them, and whether the
   * storage behind the log accepts a write.
   */
  datatype Env = Env(t0: int, t1: int, t2: int, storageUp: bool)

  datatype EngineState = EngineState(
    tasks: map<string, TaskView>,
    workflowTasks: map<string, seq<string>>,
    counter: nat,
    log: LogState)

  /** A new engine on a log that may hold entries already; it does not read them. */
  function EngineOn(log: LogState): EngineState {
    EngineState(map[], map[], 0, log)
  }

  const NEW_ENGINE := EngineOn(EMPTY_LOG)

  datatype Reply = Reply(state: EngineState, answer: Result<TaskView>)

  /** Append through the Logger interface: an implementation may refuse for reasons of its own. */
  function Persisted(log: LogState, draft: Entry, now: int, storageUp: bool): Appended {
    if storageUp then AppendTo(log, draft, now) else Appended(log, Failure(StorageFailed))
  }

  function TasksOf(index: map<string, seq<string>>, workflowId: string): seq<string> {
    if workflowId in index then index[workflowId] else []
  }

  function Enlist(index: map<string, seq<string>>, workflowId: string, id: string): map<string, seq<string>> {
    index[workflowId := TasksOf(index, workflowId) + [id]]
  }

  /** Log the creation of `t`, then put it in the map and at the end of its workflow's list. */
  function Enter(s: EngineState, t: TaskView, env: Env): Reply {
    var appended := Persisted(s.log, Draft(t.id, t.workflowId, Pending, t.payload), env.t2, env.storageUp);
    if appended.answer.Failure? then Reply(s, Failure(appended.answer.error)) else
      var index := Enlist(s.workflowTasks, t.workflowId, t.id);
      Reply(EngineState(s.tasks[t.id := t], index, appended.answer.value, appended.log), Success(t))
  }

  function CreateReply(cfg: Config, s: EngineState, workflowId: string, name: string, payload: Bytes, env: Env): Reply {
    if workflowId == "" then Reply(s, Failure(MissingWorkflowId))
    else if name == "" then Reply(s, Failure(MissingTaskName))
    else
      var id := TaskId.Make(workflowId, env.t0);
      var partition := PartitionOf(cfg, id);
      if partition.Failure? then Reply(s, Failure(partition.error)) else
        Enter(s, NewTask(id, workflowId, name, payload, env.t1).(partitionId := partition.value), env)
  }

  /**
   * Log the move of task `id` to `newState`, then make it. `t` is the task as it stands when the log is written:
   * it may carry a result or an error stored just before.
   */
  function Record(s: EngineState, id: string, t: TaskView, newState: State, data: Bytes, env: Env): Reply
    requires Allowed(t.state, newState)
  {
    var touched := s.(tasks := s.tasks[id := t]);
    var appended := Persisted(s.log, Draft(id, t.workflowId, newState, data), env.t0, env.storageUp);
    if appended.answer.Failure? then Reply(touched, Failure(appended.answer.error)) else
      var moved := Transitioned(t, newState, env.t1, env.t2).value;
      var tasks := touched.tasks[id := moved];
      Reply(EngineState(tasks, s.workflowTasks, appended.answer.value, appended.log), Success(moved))
  }

  function TransitionReply(s: EngineState, id: string, newState: State, env: Env): Reply {
    if id == "" then Reply(s, Failure(MissingTaskId))
    else if id !in s.tasks then Reply(s, Failure(TaskNotFound))
    else
      var t := s.tasks[id];
      if !Allowed(t.state, newState) then Reply(s, Failure(CanTransition(t.state, newState).error))
      else Record(s, id, t, newState, t.payload, env)
  }

  function CompleteReply(s: EngineState, id: string, result: Bytes, env: Env): Reply {
    if id == "" then Reply(s, Failure(MissingTaskId))
    else if id !in s.tasks then Reply(s, Failure(TaskNotFound))
    else
      var t := s.tasks[id];
      if t.state != Dispatched then Reply(s, Failure(NotDispatched))
      else Record(s, id, t.(result := result), Completed, result, env)
  }

  function FailReply(s: EngineState, id: string, message: Bytes, env: Env): Reply {
    if id == "" then Reply(s, Failure(MissingTaskId))
    else if id !in s.tasks then Reply(s, Failure(TaskNotFound))
    else
      var t := s.tasks[id];
      if t.state != Dispatched then Reply(s, Failure(NotDispatched))
      else Record(s, id, t.(error := message), Failed, message, env)
  }

  function GetReply(s: EngineState, id: string): Result<TaskView> {
    if id == "" then Failure(MissingTaskId)
    else if id !in s.tasks then Failure(TaskNotFound)
    else Success(s.tasks[id])
  }

  // ---------------------------------------------------------------- runs

  datatype Op =
    | Create(workflowId: string, name: string, payload: Bytes, env: Env)
    | Transition(id: string, newState: State, env: Env)
    | Complete(id: string, result: Bytes, env: Env)
    | Fail(id: string, message: Bytes, env: Env)
    | Checkpoint(upTo: nat)
    | Close

  predicate HasEnv(op: Op) {
    op.Create? || op.Transition? || op.Complete? || op.Fail?
  }

  function Do(cfg: Config, s: EngineState, op: Op): Reply
    requires HasEnv(op)
  {
    match op
    case Create(w, name, payload, env) => CreateReply(cfg, s, w, name, payload, env)
    case Transition(id, newState, env) => TransitionReply(s, id, newState, env)
    case Complete(id, result, env) => CompleteReply(s, id, result, env)
    case Fail(id, message, env) => FailReply(s, id, message, env)
  }

  function Step(cfg: Config, s: EngineState, op: Op): EngineState {
    match op
    case Checkpoint(upTo) => s.(log := CheckpointAt(s.log, upTo).0)
    case Close => s.(log := Closed(s.log))
    case _ => Do(cfg, s, op).state
  }

  function Run(cfg: Config, s: EngineState, ops: seq<Op>): EngineState {
    if ops == [] then s else Step(cfg, Run(cfg, s, ops[..|ops| - 1]), ops[|ops| - 1])
  }

  lemma {:induction false} RunConcat(cfg: Config, s: EngineState, a: seq<Op>, b: seq<Op>)
    ensures Run(cfg, s, a + b) == Run(cfg, Run(cfg, s, a), b)
  {
    if b == [] {
      assert a + b == a;
    } else {
      var last := |b| - 1;
      RunConcat(cfg, s, a, b[..last]);
      assert (a + b)[..|a + b| - 1] == a + b[..last];
    }
  }

  lemma OneCall(cfg: Config, s: EngineState, op: Op)
    ensures Run(cfg, s, [op]) == Step(cfg, s, op)
  {
    assert [op][..0] == [];
  }

  lemma TwoCalls(cfg: Config, s: EngineState, a: Op, b: Op)
    ensures Run(cfg, s, [a, b]) == Step(cfg, Step(cfg, s, a), b)
  {
    assert [a, b] == [a] + [b];
    RunConcat(cfg, s, [a], [b]);
    OneCall(cfg, s, a);
    OneCall(cfg, Step(cfg, s, a), b);
  }

  // ---------------------------------------------------------------- what every run keeps

  ghost predicate TaskInv(cfg: Config, id: string, t: TaskView) {
    && t.id == id
    && Coherent(t)
    && PartitionOf(cfg, id) == Success(t.partitionId)
  }

  /** Every task is where the index says it is, and the index names no other task. */
  ghost predicate Indexed(s: EngineState) {
    && (forall id :: id in s.tasks ==> id in TasksOf(s.workflowTasks, s.tasks[id].workflowId))
    && (forall w, i :: w in s.workflowTasks && 0 <= i < |s.workflowTasks[w]| ==> s.workflowTasks[w][i] in s.tasks)
  }

  ghost predicate Inv(cfg: Config, s: EngineState) {
    && LogInv(s.log)
    && s.counter == |s.log.history|
    && (forall id :: id in s.tasks ==> TaskInv(cfg, id, s.tasks[id]))
    && Indexed(s)
  }

  // ---------------------------------------------------------------- what a step does

  /** The four things a step can do to the tasks, the index and the history. */
  datatype Effect =
    | Quiet
    | Touch(t: TaskView)
    | Move(t: TaskView, newState: State, entry: Entry, updated: int, stamped: int)
    | Birth(t: TaskView, entry: Entry)
  {
    /** The task after the move. */
    function Moved(): TaskView
      requires Move? && Allowed(t.state, newState)
    {
      Transitioned(t, newState, updated, stamped).value
    }
  }

  /** `entry` is what the log makes of an accepted write. */
  ghost predicate Logged(before: LogState, after: LogState, entry: Entry) {
    && after.history == before.history + [entry]
    && after.entries == before.entries + [entry]
    && after.sequence == before.sequence + 1 == entry.sequence
    && after.committed == before.committed
  }

  /** `t` is a task of `s`, except perhaps for a result or an error stored while it was dispatched. */
  ghost predicate Stored(s: EngineState, t: TaskView) {
    && t.id in s.tasks
    && t == s.tasks[t.id].(result := t.result, error := t.error)
    && (t != s.tasks[t.id] ==> t.state == Dispatched)
  }

  ghost predicate Explains(cfg: Config, s: EngineState, s': EngineState, effect: Effect) {
    match effect
    case Quiet =>
      && s' == s.(log := s'.log) && LogInv(s'.log)
      && s'.log.history == s.log.history
    case Touch(t) =>
      && Stored(s, t) && t.state == Dispatched
      && s' == s.(tasks := s.tasks[t.id := t])
    case Move(t, newState, entry, _, _) =>
      && Stored(s, t) && Allowed(t.state, newState)
      && entry.taskId == t.id && entry.workflowId == t.workflowId && entry.state == newState
      && s'.tasks == s.tasks[t.id := effect.Moved()]
      && s'.workflowTasks == s.workflowTasks && s'.counter == s'.log.sequence
      && Logged(s.log, s'.log, entry)
    case Birth(t, entry) =>
      && t == NewTask(t.id, t.workflowId, t.name, t.payload, t.createdAt).(partitionId := t.partitionId)
      && t.id != "" && t.workflowId != "" && PartitionOf(cfg, t.id) == Success(t.partitionId)
      && entry.taskId == t.id && entry.workflowId == t.workflowId && entry.state == Pending && entry.data == t.payload
      && s'.tasks == s.tasks[t.id := t]
      && s'.workflowTasks == Enlist(s.workflowTasks, t.workflowId, t.id) && s'.counter == s'.log.sequence
      && Logged(s.log, s'.log, entry)
  }

  /** A successful create; its id may be one that is taken. */
  ghost predicate Creates(cfg: Config, s: EngineState, op: Op) {
    op.Create? && Do(cfg, s, op).answer.Success?
  }

  function NewId(op: Op): string
    requires op.Create?
  {
    TaskId.Make(op.workflowId, op.env.t0)
  }

  /** The task the call is about. */
  function Subject(op: Op): string
    requires HasEnv(op)
  {
    if op.Create? then NewId(op) else op.id
  }

  /**
   * The move that follows an accepted write is always allowed: the error the source returns after its second
   * check of the transition is never returned.
   */
  lemma ExplainRecord(cfg: Config, s: EngineState, id: string, t: TaskView, newState: State, data: Bytes, env: Env)
    returns (effect: Effect)
    requires Inv(cfg, s) && id in s.tasks && Allowed(t.state, newState)
    requires t == s.tasks[id].(result := t.result, error := t.error)
    requires t != s.tasks[id] ==> t.state == Dispatched
    ensures var r := Record(s, id, t, newState, data, env);
            && Explains(cfg, s, r.state, effect)
            && (r.answer.Success? <==> env.storageUp)
            && (r.answer.Success? ==>
                  && effect.Move? && effect.t == t && effect.newState == newState && effect.entry.data == data
                  && effect.updated == env.t1 && effect.stamped == env.t2)
            && (r.answer.Failure? ==> effect == if t == s.tasks[id] then Quiet else Touch(t))
  {
    assert TaskInv(cfg, id, s.tasks[id]);
    assert IsValidState(newState);
    var appended := Persisted(s.log, Draft(id, t.workflowId, newState, data), env.t0, env.storageUp);
    if appended.answer.Failure? {
      effect := if t == s.tasks[id] then Quiet else Touch(t);
      assert s.tasks[id := s.tasks[id]] == s.tasks;
    } else {
      effect := Move(t, newState, appended.log.history[|s.log.history|], env.t1, env.t2);
      assert Record(s, id, t, newState, data, env).state.tasks
          == s.tasks[id := t][id := Transitioned(t, newState, env.t1, env.t2).value]
          == s.tasks[t.id := Transitioned(t, newState, env.t1, env.t2).value];
    }
  }

  /** Every step has one of the effects. */
  lemma Explain(cfg: Config, s: EngineState, op: Op) returns (effect: Effect)
    requires Inv(cfg, s)
    ensures Explains(cfg, s, Step(cfg, s, op), effect)
    ensures effect.Birth? <==> Creates(cfg, s, op)
    ensures effect.Birth? ==> effect.t.id == NewId(op) && effect.t.createdAt == op.env.t1
    ensures effect.Birth? ==>
              effect.t.workflowId == op.workflowId && effect.t.name == op.name && effect.t.payload == op.payload
    ensures HasEnv(op) && !op.Create? ==> (effect.Move? <==> Do(cfg, s, op).answer.Success?)
    ensures effect.Move? || effect.Touch? ==> (op.Transition? || op.Complete? || op.Fail?) && effect.t.id == op.id
    ensures effect.Move? ==> HasEnv(op) && effect.updated == op.env.t1 && effect.stamped == op.env.t2
    ensures effect.Move? ==>
              || (op.Transition? && op.newState == effect.newState && effect.entry.data == effect.t.payload)
              || (op.Complete? && effect.newState == Completed && effect.entry.data == effect.t.result)
              || (op.Fail? && effect.newState == Failed && effect.entry.data == effect.t.error)
  {
    effect := Quiet;
    match op {
      case Create(w, name, payload, env) =>
        var r := CreateReply(cfg, s, w, name, payload, env);
        if r.answer.Success? {
          TaskId.MakeIsNotEmpty(w, env.t0);
          effect := Birth(r.answer.value, r.state.log.history[|s.log.history|]);
        }
      case Checkpoint(upTo) =>
        StepKeepsLogInv(s.log, DoCheckpoint(upTo));
      case Close =>
        StepKeepsLogInv(s.log, DoClose);
      case Transition(id, newState, env) =>
        if id != "" && id in s.tasks && Allowed(s.tasks[id].state, newState) {
          effect := ExplainRecord(cfg, s, id, s.tasks[id], newState, s.tasks[id].payload, env);
        }
      case Complete(id, result, env) =>
        if id != "" && id in s.tasks && s.tasks[id].state == Dispatched {
          effect := ExplainRecord(cfg, s, id, s.tasks[id].(result := result), Completed, result, env);
        }
      case Fail(id, message, env) =>
        if id != "" && id in s.tasks && s.tasks[id].state == Dispatched {
          effect := ExplainRecord(cfg, s, id, s.tasks[id].(error := message), Failed, message, env);
        }
    }
  }

  // ---------------------------------------------------------------- the invariant

  lemma TransitionCoherent(t: TaskView, newState: State, updated: int, stamped: int)
    requires Coherent(t) && Allowed(t.state, newState)
    ensures Transitioned(t, newState, updated, stamped).Success?
    ensures Coherent(Transitioned(t, newState, updated, stamped).value)
  {
    assert newState in Targets(t.state);
  }

  lemma MovedKeepsTask(cfg: Config, id: string, t: TaskView, newState: State, updated: int, stamped: int)
    requires TaskInv(cfg, id, t) && Allowed(t.state, newState)
    ensures var moved := Transitioned(t, newState, updated, stamped).value;
            TaskInv(cfg, id, moved) && moved.workflowId == t.workflowId
  {
    TransitionCoherent(t, newState, updated, stamped);
  }

  lemma LoggedKeepsLogInv(before: LogState, after: LogState, entry: Entry)
    requires LogInv(before) && Logged(before, after, entry)
    ensures LogInv(after)
  {
    StepKeepsLogInv(before, DoAppend(entry, entry.timestamp));
    var cut := |before.history| - |before.entries|;
    assert after.history[cut..] == before.history[cut..] + [entry];
  }

  /** Every effect leaves each task as the invariant wants it, under the workflow that lists it. */
  lemma EffectKeepsTask(cfg: Config, s: EngineState, s': EngineState, effect: Effect, id: string)
    requires Explains(cfg, s, s', effect) && id in s'.tasks
    requires id in s.tasks ==> TaskInv(cfg, id, s.tasks[id])
    ensures TaskInv(cfg, id, s'.tasks[id])
    ensures id in s.tasks && !effect.Birth? ==> s'.tasks[id].workflowId == s.tasks[id].workflowId
  {
    if effect.Move? && effect.t.id == id {
      MovedKeepsTask(cfg, id, effect.t, effect.newState, effect.updated, effect.stamped);
    }
  }

  lemma EffectKeepsInv(cfg: Config, s: EngineState, s': EngineState, effect: Effect)
    requires Inv(cfg, s) && Explains(cfg, s, s', effect)
    ensures Inv(cfg, s')
  {
    if effect.Move? || effect.Birth? {
      LoggedKeepsLogInv(s.log, s'.log, effect.entry);
    }
    forall id | id in s'.tasks
      ensures TaskInv(cfg, id, s'.tasks[id]) && id in TasksOf(s'.workflowTasks, s'.tasks[id].workflowId)
    {
      EffectKeepsTask(cfg, s, s', effect, id);
    }
  }

  lemma StepKeepsInv(cfg: Config, s: EngineState, op: Op)
    requires Inv(cfg, s)
    ensures Inv(cfg, Step(cfg, s, op))
  {
    var effect := Explain(cfg, s, op);
    EffectKeepsInv(cfg, s, Step(cfg, s, op), effect);
  }

  lemma {:induction false} RunKeepsInvFrom(cfg: Config, s: EngineState, ops: seq<Op>)
    requires Inv(cfg, s)
    ensures Inv(cfg, Run(cfg, s, ops))
  {
    if ops != [] {
      RunKeepsInvFrom(cfg, s, ops[..|ops| - 1]);
      StepKeepsInv(cfg, Run(cfg, s, ops[..|ops| - 1]), ops[|ops| - 1]);
    }
  }

  lemma {:induction false} RunKeepsInv(cfg: Config, ops: seq<Op>)
    ensures Inv(cfg, Run(cfg, NEW_ENGINE, ops))
  {
    RunKeepsInvFrom(cfg, NEW_ENGINE, ops);
  }

  lemma {:induction false} RunKeepsTasks(cfg: Config, s: EngineState, ops: seq<Op>)
    ensures s.tasks.Keys <= Run(cfg, s, ops).tasks.Keys
  {
    if ops != [] {
      RunKeepsTasks(cfg, s, ops[..|ops| - 1]);
    }
  }
}
