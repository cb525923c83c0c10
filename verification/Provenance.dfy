/** Everything in the engine comes from calls that succeeded (internal/executor/executor.go). */
module Provenance {
  import opened Results
  import opened TaskState
  import opened Tasks
  import opened Wal
  import opened Partition
  import opened EngineSpec
  import opened Recovery
  import opened Outcomes
  import TaskId

  /** The client sees the call succeed. */
  ghost predicate Succeeds(cfg: Config, s: EngineState, op: Op) {
    HasEnv(op) && Do(cfg, s, op).answer.Success?
  }

  /** The last successful CreateTask of this id. */
  ghost function Maker(cfg: Config, ops: seq<Op>, id: string): (maker: Option<Op>)
    ensures maker.Some? ==> maker.value.Create?
  {
    if ops == [] then None else
      var before, op := ops[..|ops| - 1], ops[|ops| - 1];
      if Makes(cfg, Run(cfg, NEW_ENGINE, before), op, id) then Some(op) else Maker(cfg, before, id)
  }

  /** The call hands the task to a worker. */
  ghost predicate Dispatches(cfg: Config, s: EngineState, op: Op, id: string) {
    op.Transition? && op.id == id && op.newState == Dispatched && Succeeds(cfg, s, op)
  }

  /** The successful dispatches of the task since it was made: how many, and the time of the last one. */
  datatype Hands = Hands(count: nat, last: Option<int>)

  const NO_HANDS := Hands(0, None)

  ghost function HandsOf(cfg: Config, ops: seq<Op>, id: string): Hands {
    if ops == [] then NO_HANDS else
      var before, op := ops[..|ops| - 1], ops[|ops| - 1];
      HandsAfter(cfg, Run(cfg, NEW_ENGINE, before), op, id, HandsOf(cfg, before, id))
  }

  ghost function HandsAfter(cfg: Config, s: EngineState, op: Op, id: string, hands: Hands): Hands {
    if Makes(cfg, s, op, id) then NO_HANDS
    else if Dispatches(cfg, s, op, id) then Hands(hands.count + 1, Some(op.env.t2))
    else hands
  }

  // ---------------------------------------------------------------- what never changes

  /** What the task has from the call that made it. */
  ghost predicate AsMade(t: TaskView, maker: Option<Op>) {
    && maker.Some? && maker.value.Create?
    && var op := maker.value;
       && t.id == NewId(op) && t.workflowId == op.workflowId && t.name == op.name && t.payload == op.payload
       && t.createdAt == op.env.t1 && t.maxAttempts == 3
  }

  /** The task is in the partition that the hash of its id says. */
  ghost predicate Placed(cfg: Config, t: TaskView) {
    cfg.count > 0 && t.partitionId == cfg.hash(t.id) % cfg.count
  }

  lemma EffectMakes(cfg: Config, s: EngineState, s': EngineState, effect: Effect, op: Op, id: string,
                    maker: Option<Op>)
    requires Explains(cfg, s, s', effect)
    requires effect.Birth? ==>
               && op.Create? && effect.t.id == NewId(op) && effect.t.createdAt == op.env.t1
               && effect.t.workflowId == op.workflowId && effect.t.name == op.name && effect.t.payload == op.payload
    requires id in s.tasks <==> maker.Some?
    requires id in s.tasks ==> AsMade(s.tasks[id], maker)
    ensures var maker' := if effect.Birth? && effect.t.id == id then Some(op) else maker;
            && (id in s'.tasks <==> maker'.Some?)
            && (id in s'.tasks ==> AsMade(s'.tasks[id], maker'))
  {
  }

  lemma StepMakes(cfg: Config, s: EngineState, op: Op, id: string, maker: Option<Op>)
    requires Inv(cfg, s)
    requires id in s.tasks <==> maker.Some?
    requires id in s.tasks ==> AsMade(s.tasks[id], maker)
    ensures var s', maker' := Step(cfg, s, op), if Makes(cfg, s, op, id) then Some(op) else maker;
            && (id in s'.tasks <==> maker'.Some?)
            && (id in s'.tasks ==> AsMade(s'.tasks[id], maker'))
  {
    var effect := Explain(cfg, s, op);
    EffectMakes(cfg, s, Step(cfg, s, op), effect, op, id, maker);
  }

  lemma {:induction false} MadeByItsMaker(cfg: Config, ops: seq<Op>, id: string)
    ensures var s, maker := Run(cfg, NEW_ENGINE, ops), Maker(cfg, ops, id);
            && (id in s.tasks <==> maker.Some?)
            && (id in s.tasks ==> AsMade(s.tasks[id], maker))
  {
    if ops != [] {
      var before := ops[..|ops| - 1];
      MadeByItsMaker(cfg, before, id);
      RunKeepsInv(cfg, before);
      StepMakes(cfg, Run(cfg, NEW_ENGINE, before), ops[|ops| - 1], id, Maker(cfg, before, id));
    }
  }

  // ---------------------------------------------------------------- what moves change

  /** What the task has from the last call that moved it and from its dispatches. */
  ghost predicate AsMoved(t: TaskView, mover: Option<Op>, hands: Hands) {
    && mover.Some? && HasEnv(mover.value)
    && t.state == Target(mover.value) && t.updatedAt == mover.value.env.t1
    && t.completedAt == (if t.state == Completed then Some(mover.value.env.t2) else None)
    && t.attempts == hands.count && t.dispatchedAt == hands.last
  }

  lemma EffectMoves(cfg: Config, s: EngineState, s': EngineState, effect: Effect, op: Op, id: string,
                    mover: Option<Op>, hands: Hands)
    requires Inv(cfg, s) && Explains(cfg, s, s', effect) && id in s'.tasks
    requires id in s.tasks ==> AsMoved(s.tasks[id], mover, hands)
    requires effect.Birth? ==> op.Create? && effect.t.createdAt == op.env.t1
    requires effect.Move? ==>
               && (op.Transition? || op.Complete? || op.Fail?) && effect.newState == Target(op)
               && effect.updated == op.env.t1 && effect.stamped == op.env.t2
    ensures AsMoved(s'.tasks[id], if Writes(effect, id) then Some(op) else mover,
                    if effect.Birth? && effect.t.id == id then NO_HANDS
                    else if effect.Move? && effect.t.id == id && effect.newState == Dispatched
                    then Hands(hands.count + 1, Some(op.env.t2)) else hands)
  {
    if effect.Move? && effect.t.id == id {
      assert TaskInv(cfg, id, s.tasks[id]);
      MoveStamps(effect.t, effect.newState, effect.updated, effect.stamped);
    }
  }

  lemma StepMoves(cfg: Config, s: EngineState, op: Op, id: string, mover: Option<Op>, hands: Hands)
    requires Inv(cfg, s) && id in Step(cfg, s, op).tasks
    requires id in s.tasks ==> AsMoved(s.tasks[id], mover, hands)
    ensures AsMoved(Step(cfg, s, op).tasks[id],
                    if Succeeds(cfg, s, op) && Subject(op) == id then Some(op) else mover,
                    HandsAfter(cfg, s, op, id, hands))
  {
    var effect := Explain(cfg, s, op);
    EffectMoves(cfg, s, Step(cfg, s, op), effect, op, id, mover, hands);
  }

  lemma MoveStamps(t: TaskView, newState: State, updated: int, stamped: int)
    requires Allowed(t.state, newState) && Coherent(t)
    ensures var moved, dispatched := Transitioned(t, newState, updated, stamped).value, newState == Dispatched;
            && moved.state == newState && moved.updatedAt == updated
            && moved.completedAt == (if newState == Completed then Some(stamped) else None)
            && moved.attempts == t.attempts + (if dispatched then 1 else 0)
            && moved.dispatchedAt == (if dispatched then Some(stamped) else t.dispatchedAt)
  {
    assert newState in Targets(t.state);
  }

  lemma {:induction false} MovedByItsMover(cfg: Config, ops: seq<Op>, id: string)
    requires id in Run(cfg, NEW_ENGINE, ops).tasks
    ensures AsMoved(Run(cfg, NEW_ENGINE, ops).tasks[id], LastMover(cfg, ops, id), HandsOf(cfg, ops, id))
  {
    var before, op := ops[..|ops| - 1], ops[|ops| - 1];
    var s := Run(cfg, NEW_ENGINE, before);
    if id in s.tasks {
      MovedByItsMover(cfg, before, id);
    }
    RunKeepsInv(cfg, before);
    StepMoves(cfg, s, op, id, LastMover(cfg, before, id), HandsOf(cfg, before, id));
  }

  /**
   * In every run, with reused ids and refused writes anywhere: a task exists exactly when a create of its id has
   * succeeded, and each of its fields is what the call in question was given, or read from the clock.
   */
  lemma {:induction false} EveryFieldHasItsCall(cfg: Config, ops: seq<Op>, id: string)
    ensures var s := Run(cfg, NEW_ENGINE, ops);
            && (id in s.tasks <==> Maker(cfg, ops, id).Some?)
            && (id in s.tasks ==>
                  && AsMade(s.tasks[id], Maker(cfg, ops, id)) && Placed(cfg, s.tasks[id])
                  && AsMoved(s.tasks[id], LastMover(cfg, ops, id), HandsOf(cfg, ops, id))
                  && s.tasks[id].result == StoredResult(cfg, ops, id)
                  && s.tasks[id].error == StoredError(cfg, ops, id))
  {
    MadeByItsMaker(cfg, ops, id);
    if id in Run(cfg, NEW_ENGINE, ops).tasks {
      MovedByItsMover(cfg, ops, id);
      RunKeepsInv(cfg, ops);
      assert TaskInv(cfg, id, Run(cfg, NEW_ENGINE, ops).tasks[id]);
      PartitionIsHash(cfg, id);
      HoldsWhatWasStored(cfg, ops, id);
    }
  }

  // ---------------------------------------------------------------- the log

  /** The entry that a successful call about a task made by `maker` leaves: what the call was given, and when. */
  function Noted(op: Op, maker: Op, number: nat): Entry
    requires HasEnv(op) && maker.Create?
  {
    match op
    case Create(w, _, payload, env) => Entry(number, NewId(op), w, Pending, payload, env.t2, false)
    case Transition(id, to, env) => Entry(number, id, maker.workflowId, to, maker.payload, env.t0, false)
    case Complete(id, result, env) => Entry(number, id, maker.workflowId, Completed, result, env.t0, false)
    case Fail(id, message, env) => Entry(number, id, maker.workflowId, Failed, message, env.t0, false)
  }

  /** One entry for each successful call, in the order of the calls. */
  ghost function LogOf(cfg: Config, ops: seq<Op>): seq<Entry> {
    if ops == [] then [] else
      var before, op := ops[..|ops| - 1], ops[|ops| - 1];
      var earlier := LogOf(cfg, before);
      if !Succeeds(cfg, Run(cfg, NEW_ENGINE, before), op) then earlier else
        var maker := if op.Create? then Some(op) else Maker(cfg, before, op.id);
        earlier + if maker.Some? then [Noted(op, maker.value, |earlier| + 1)] else []
  }

  lemma RecordLogs(s: EngineState, id: string, t: TaskView, newState: State, data: Bytes, env: Env)
    requires LogInv(s.log) && Allowed(t.state, newState) && id != "" && t.workflowId != ""
    ensures var r := Record(s, id, t, newState, data, env);
            && (r.answer.Success? <==> env.storageUp)
            && (env.storageUp ==> r.answer.value == r.state.tasks[id])
            && r.state.workflowTasks == s.workflowTasks
            && r.state.log.history == s.log.history + if !env.storageUp then [] else
                 [Entry(|s.log.history| + 1, id, t.workflowId, newState, data, env.t0, false)]
  {
    assert newState in AllStates();
  }

  /** A call that succeeds adds its entry to the log and answers the task as it is then; any other adds nothing. */
  lemma StepLogs(cfg: Config, s: EngineState, op: Op, maker: Option<Op>)
    requires Inv(cfg, s)
    requires HasEnv(op) && !op.Create? && op.id in s.tasks ==> AsMade(s.tasks[op.id], maker)
    ensures var s' := Step(cfg, s, op);
            if !Succeeds(cfg, s, op) then s'.log.history == s.log.history else
              && Subject(op) in s'.tasks && Do(cfg, s, op).answer.value == s'.tasks[Subject(op)]
              && (op.Create? || maker.Some?)
              && s'.log.history == s.log.history +
                   [Noted(op, if op.Create? then op else maker.value, |s.log.history| + 1)]
  {
    if HasEnv(op) && !op.Create? && op.id in s.tasks {
      var t := s.tasks[op.id];
      assert TaskInv(cfg, op.id, t);
      match op {
        case Transition(id, newState, env) =>
          if Allowed(t.state, newState) {
            RecordLogs(s, id, t, newState, t.payload, env);
          }
        case Complete(id, result, env) =>
          if t.state == Dispatched {
            RecordLogs(s, id, t.(result := result), Completed, result, env);
          }
        case Fail(id, message, env) =>
          if t.state == Dispatched {
            RecordLogs(s, id, t.(error := message), Failed, message, env);
          }
      }
    } else if op.Create? {
      TaskId.MakeIsNotEmpty(op.workflowId, op.env.t0);
    }
  }

  /**
   * In every run the log has got exactly one entry for each call that the client saw succeed, in that order, and each
   * holds what that call and the create of its task were given.
   */
  lemma {:induction false} LogHasEveryCall(cfg: Config, ops: seq<Op>)
    ensures Run(cfg, NEW_ENGINE, ops).log.history == LogOf(cfg, ops)
  {
    if ops != [] {
      var before, op := ops[..|ops| - 1], ops[|ops| - 1];
      var maker := if HasEnv(op) && !op.Create? then Maker(cfg, before, op.id) else None;
      LogHasEveryCall(cfg, before);
      RunKeepsInv(cfg, before);
      if HasEnv(op) && !op.Create? {
        MadeByItsMaker(cfg, before, op.id);
      }
      StepLogs(cfg, Run(cfg, NEW_ENGINE, before), op, maker);
    }
  }

  /** How many calls have succeeded since the engine was last closed. */
  ghost function SinceLastClose(cfg: Config, ops: seq<Op>): (n: nat)
    ensures n <= |LogOf(cfg, ops)|
  {
    if ops == [] || ops[|ops| - 1].Close? then 0 else
      var before := ops[..|ops| - 1];
      SinceLastClose(cfg, before) + |LogOf(cfg, ops)| - |LogOf(cfg, before)|
  }

  /** The last checkpoint that was not beyond the entries of its time. */
  ghost function LastAccepted(cfg: Config, ops: seq<Op>): nat {
    if ops == [] then 0 else
      var before, op := ops[..|ops| - 1], ops[|ops| - 1];
      if op.Checkpoint? && op.upTo <= |LogOf(cfg, before)| then op.upTo else LastAccepted(cfg, before)
  }

  /** What one step does to the log. */
  ghost predicate LogMoved(before: LogState, after: LogState, op: Op) {
    && before.history <= after.history
    && after.entries == (if op.Close? then [] else before.entries + after.history[|before.history|..])
    && after.committed == if op.Checkpoint? && op.upTo <= before.sequence then op.upTo else before.committed
  }

  lemma StepOnLog(cfg: Config, s: EngineState, op: Op)
    requires Inv(cfg, s)
    ensures LogMoved(s.log, Step(cfg, s, op).log, op)
  {
    if HasEnv(op) {
      CallOnLog(cfg, s, op);
    }
  }

  lemma CallOnLog(cfg: Config, s: EngineState, op: Op)
    requires HasEnv(op)
    ensures LogMoved(s.log, Step(cfg, s, op).log, op)
  {
    var log' := Step(cfg, s, op).log;
    if log' != s.log {
      assert log'.entries == s.log.entries + [log'.history[|s.log.history|]];
      assert log'.history[|s.log.history|..] == [log'.history[|s.log.history|]];
    }
  }

  /** In every run: what the log still holds of those entries, its checkpoint, and the engine's counter. */
  lemma {:induction false} LogHoldsSinceClose(cfg: Config, ops: seq<Op>)
    ensures var s, all := Run(cfg, NEW_ENGINE, ops), LogOf(cfg, ops);
            && s.log.entries == all[|all| - SinceLastClose(cfg, ops)..]
            && s.log.committed == LastAccepted(cfg, ops) && s.counter == s.log.sequence == |all|
  {
    LogHasEveryCall(cfg, ops);
    RunKeepsInv(cfg, ops);
    if ops != [] {
      var before, op := ops[..|ops| - 1], ops[|ops| - 1];
      LogHoldsSinceClose(cfg, before);
      LogHasEveryCall(cfg, before);
      RunKeepsInv(cfg, before);
      StepOnLog(cfg, Run(cfg, NEW_ENGINE, before), op);
      Suffixes(LogOf(cfg, before), LogOf(cfg, ops), |LogOf(cfg, before)| - SinceLastClose(cfg, before));
    }
  }

  lemma Suffixes(earlier: seq<Entry>, all: seq<Entry>, cut: nat)
    requires earlier <= all && cut <= |earlier|
    ensures all[cut..] == earlier[cut..] + all[|earlier|..]
  {
  }

  /** After every run, what a successful call answers is the task as the engine then holds it. */
  lemma AnswersTheTask(cfg: Config, ops: seq<Op>, op: Op)
    requires Succeeds(cfg, Run(cfg, NEW_ENGINE, ops), op)
    ensures var s' := Run(cfg, NEW_ENGINE, ops + [op]);
            Subject(op) in s'.tasks && Do(cfg, Run(cfg, NEW_ENGINE, ops), op).answer.value == s'.tasks[Subject(op)]
  {
    assert (ops + [op])[..|ops|] == ops;
    RunKeepsInv(cfg, ops);
    if !op.Create? {
      MadeByItsMaker(cfg, ops, op.id);
    }
    StepLogs(cfg, Run(cfg, NEW_ENGINE, ops), op, if op.Create? then None else Maker(cfg, ops, op.id));
  }

  /** The ids of the successful creates for one workflow, in order; a reused id comes again. */
  ghost function ListOf(cfg: Config, ops: seq<Op>, w: string): seq<string> {
    if ops == [] then [] else
      var before, op := ops[..|ops| - 1], ops[|ops| - 1];
      ListOf(cfg, before, w) +
        if op.Create? && op.workflowId == w && Succeeds(cfg, Run(cfg, NEW_ENGINE, before), op) then [NewId(op)] else []
  }

  /** In every run, with reused ids too, that is the list of the workflow. */
  lemma {:induction false} ListsHaveEveryCreate(cfg: Config, ops: seq<Op>, w: string)
    ensures TasksOf(Run(cfg, NEW_ENGINE, ops).workflowTasks, w) == ListOf(cfg, ops, w)
  {
    if ops != [] {
      var before, op := ops[..|ops| - 1], ops[|ops| - 1];
      ListsHaveEveryCreate(cfg, before, w);
      RunKeepsInv(cfg, before);
      var effect := Explain(cfg, Run(cfg, NEW_ENGINE, before), op);
    }
  }

  // ---------------------------------------------------------------- which calls succeed

  /** The state in which the calls so far left the task, if a create has made it. */
  ghost function StateOf(cfg: Config, ops: seq<Op>, id: string): Option<State> {
    var mover := LastMover(cfg, ops, id);
    if Maker(cfg, ops, id).Some? && mover.Some? && HasEnv(mover.value) then Some(Target(mover.value)) else None
  }

  /** The call is in order, whatever the storage says. */
  ghost predicate InOrder(cfg: Config, op: Op, state: Option<State>)
    requires HasEnv(op)
  {
    match op
    case Create(w, name, _, _) => w != "" && name != "" && cfg.count > 0
    case Transition(_, to, _) => state.Some? && to in Targets(state.value)
    case _ => state == Some(Dispatched)
  }

  lemma StepSucceedsIff(cfg: Config, s: EngineState, op: Op)
    requires Inv(cfg, s) && HasEnv(op)
    ensures var state := if !op.Create? && op.id in s.tasks then Some(s.tasks[op.id].state) else None;
            Succeeds(cfg, s, op) <==> InOrder(cfg, op, state) && op.env.storageUp
  {
    if op.Create? {
      TaskId.MakeIsNotEmpty(op.workflowId, op.env.t0);
    } else if op.id in s.tasks {
      assert TaskInv(cfg, op.id, s.tasks[op.id]);
      CheckAnswers(s.tasks[op.id].state, if op.Transition? then op.newState else Completed);
    }
  }

  /** After every run a call succeeds exactly when the storage takes it and the calls that succeeded before allow it. */
  lemma {:induction false} SucceedsIff(cfg: Config, ops: seq<Op>, op: Op)
    requires HasEnv(op)
    ensures var state := if op.Create? then None else StateOf(cfg, ops, op.id);
            Succeeds(cfg, Run(cfg, NEW_ENGINE, ops), op) <==> InOrder(cfg, op, state) && op.env.storageUp
  {
    RunKeepsInv(cfg, ops);
    StepSucceedsIff(cfg, Run(cfg, NEW_ENGINE, ops), op);
    if !op.Create? {
      EveryFieldHasItsCall(cfg, ops, op.id);
    }
  }

  /** What a call that fails is told, and when: one of the conditions holds, and the message says which. */
  lemma RefusedBecause(cfg: Config, s: EngineState, op: Op)
    requires Inv(cfg, s) && HasEnv(op) && !Succeeds(cfg, s, op)
    ensures var error := Do(cfg, s, op).answer.error;
            var known := !op.Create? && op.id in s.tasks;
            && (error == MissingWorkflowId <==> op.Create? && op.workflowId == "")
            && (error == MissingTaskName <==> op.Create? && op.workflowId != "" && op.name == "")
            && (error == NoPartitions <==> op.Create? && op.workflowId != "" && op.name != "" && cfg.count == 0)
            && (error == MissingTaskId <==> !op.Create? && op.id == "")
            && (error == TaskNotFound <==> !op.Create? && op.id != "" && !known)
            && (error == InvalidToState <==> op.Transition? && known && !IsValidState(op.newState))
            && (error == InvalidTransition <==>
                op.Transition? && known && IsValidState(op.newState) && op.newState !in Targets(s.tasks[op.id].state))
            && (error == NotDispatched <==> (op.Complete? || op.Fail?) && known && s.tasks[op.id].state != Dispatched)
            && (error == StorageFailed <==>
                InOrder(cfg, op, if known then Some(s.tasks[op.id].state) else None) && !op.env.storageUp)
  {
    if op.Create? {
      TaskId.MakeIsNotEmpty(op.workflowId, op.env.t0);
    } else if op.id in s.tasks {
      assert TaskInv(cfg, op.id, s.tasks[op.id]);
      CheckAnswers(s.tasks[op.id].state, if op.Transition? then op.newState else Completed);
    }
  }

  /** One create on any engine: when it succeeds, what it answers and logs, and that a refused one changes nothing. */
  lemma CreateDoesAsTold(cfg: Config, s: EngineState, w: string, name: string, payload: Bytes, env: Env)
    requires Inv(cfg, s)
    ensures var r := CreateReply(cfg, s, w, name, payload, env);
            && (r.answer.Success? <==> w != "" && name != "" && cfg.count > 0 && env.storageUp)
            && (r.answer.Failure? ==> r.state == s)
            && (r.answer.Success? ==>
                  && AsMade(r.answer.value, Some(Create(w, name, payload, env))) && Placed(cfg, r.answer.value)
                  && r.answer.value.state == Pending && r.answer.value.attempts == 0
                  && r.state.tasks == s.tasks[r.answer.value.id := r.answer.value]
                  && r.state.log.history == s.log.history +
                       [Entry(r.state.counter, r.answer.value.id, w, Pending, payload, env.t2, false)])
  {
    TaskId.MakeIsNotEmpty(w, env.t0);
    var r := CreateReply(cfg, s, w, name, payload, env);
    if r.answer.Success? {
      PartitionIsHash(cfg, r.answer.value.id);
    }
  }
}
