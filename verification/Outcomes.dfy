/** The result and the error of a task: what stores them, what the log and the answer to a client make of them. */
module Outcomes {
  import opened Results
  import opened TaskState
  import opened Tasks
  import opened Wal
  import opened Partition
  import opened EngineSpec
  import opened Recovery
  import opened History
  import opened Gateway

  /** The call finds task `id` dispatched. */
  ghost predicate MeetsDispatched(s: EngineState, id: string) {
    id in s.tasks && s.tasks[id].state == Dispatched
  }

  /** The call makes `id` anew. */
  ghost predicate Makes(cfg: Config, s: EngineState, op: Op, id: string) {
    Creates(cfg, s, op) && NewId(op) == id
  }

  /** The result of the last CompleteTask that found the task dispatched, whether the log took it or not. */
  ghost function StoredResult(cfg: Config, ops: seq<Op>, id: string): Bytes {
    if ops == [] then "" else
      var before, op := ops[..|ops| - 1], ops[|ops| - 1];
      var s := Run(cfg, NEW_ENGINE, before);
      if Makes(cfg, s, op, id) then ""
      else if op.Complete? && op.id == id && MeetsDispatched(s, id) then op.result
      else StoredResult(cfg, before, id)
  }

  /** The message of the last FailTask that found the task dispatched, likewise. */
  ghost function StoredError(cfg: Config, ops: seq<Op>, id: string): Bytes {
    if ops == [] then "" else
      var before, op := ops[..|ops| - 1], ops[|ops| - 1];
      var s := Run(cfg, NEW_ENGINE, before);
      if Makes(cfg, s, op, id) then ""
      else if op.Fail? && op.id == id && MeetsDispatched(s, id) then op.message
      else StoredError(cfg, before, id)
  }

  /** The call that brought the task into its present state: the last successful one about it. */
  ghost function LastMover(cfg: Config, ops: seq<Op>, id: string): Option<Op> {
    if ops == [] then None else
      var before, op := ops[..|ops| - 1], ops[|ops| - 1];
      if HasEnv(op) && Subject(op) == id && Do(cfg, Run(cfg, NEW_ENGINE, before), op).answer.Success? then Some(op)
      else LastMover(cfg, before, id)
  }

  function LastData(es: seq<Entry>, id: string): Bytes {
    if es == [] then "" else if es[|es| - 1].taskId == id then es[|es| - 1].data else LastData(es[..|es| - 1], id)
  }

  // ---------------------------------------------------------------- one call

  lemma RecordKeepsStored(s: EngineState, id: string, t: TaskView, newState: State, data: Bytes, env: Env,
                          other: string)
    requires Allowed(t.state, newState)
    ensures var tasks := Record(s, id, t, newState, data, env).state.tasks;
            && tasks.Keys == s.tasks.Keys + {id}
            && tasks[id].result == t.result && tasks[id].error == t.error
            && (other in s.tasks && other != id ==> tasks[other] == s.tasks[other])
  {
  }

  lemma TransitionStores(s: EngineState, x: string, newState: State, env: Env, id: string)
    ensures var tasks := TransitionReply(s, x, newState, env).state.tasks;
            && tasks.Keys == s.tasks.Keys
            && (id in s.tasks ==> tasks[id].result == s.tasks[id].result && tasks[id].error == s.tasks[id].error)
  {
    if x != "" && x in s.tasks && Allowed(s.tasks[x].state, newState) {
      RecordKeepsStored(s, x, s.tasks[x], newState, s.tasks[x].payload, env, id);
    }
  }

  lemma CompleteStores(s: EngineState, x: string, result: Bytes, env: Env, id: string)
    ensures var tasks := CompleteReply(s, x, result, env).state.tasks;
            && tasks.Keys == s.tasks.Keys
            && (id in s.tasks ==>
                  && tasks[id].error == s.tasks[id].error
                  && tasks[id].result == if x == id && id != "" && MeetsDispatched(s, id) then result
                                         else s.tasks[id].result)
  {
    if x != "" && MeetsDispatched(s, x) {
      RecordKeepsStored(s, x, s.tasks[x].(result := result), Completed, result, env, id);
    }
  }

  lemma FailStores(s: EngineState, x: string, message: Bytes, env: Env, id: string)
    ensures var tasks := FailReply(s, x, message, env).state.tasks;
            && tasks.Keys == s.tasks.Keys
            && (id in s.tasks ==>
                  && tasks[id].result == s.tasks[id].result
                  && tasks[id].error == if x == id && id != "" && MeetsDispatched(s, id) then message
                                        else s.tasks[id].error)
  {
    if x != "" && MeetsDispatched(s, x) {
      RecordKeepsStored(s, x, s.tasks[x].(error := message), Failed, message, env, id);
    }
  }

  /** What a call makes of the result and the error of a task. */
  lemma StepStores(cfg: Config, s: EngineState, op: Op, id: string)
    requires Inv(cfg, s) && id in Step(cfg, s, op).tasks
    ensures var t' := Step(cfg, s, op).tasks[id];
            if Makes(cfg, s, op, id) then t'.result == "" && t'.error == "" else
              && id in s.tasks
              && t'.result == (if op.Complete? && op.id == id && MeetsDispatched(s, id) then op.result
                               else s.tasks[id].result)
              && t'.error == (if op.Fail? && op.id == id && MeetsDispatched(s, id) then op.message
                              else s.tasks[id].error)
  {
    assert id in s.tasks ==> TaskInv(cfg, id, s.tasks[id]);
    match op {
      case Transition(x, newState, env) => TransitionStores(s, x, newState, env, id);
      case Complete(x, result, env) => CompleteStores(s, x, result, env, id);
      case Fail(x, message, env) => FailStores(s, x, message, env, id);
      case _ =>
    }
  }

  // ---------------------------------------------------------------- every run

  /** In every run, with reused ids too, a task holds the result and the error stored last. */
  lemma {:induction false} HoldsWhatWasStored(cfg: Config, ops: seq<Op>, id: string)
    requires id in Run(cfg, NEW_ENGINE, ops).tasks
    ensures var t := Run(cfg, NEW_ENGINE, ops).tasks[id];
            t.result == StoredResult(cfg, ops, id) && t.error == StoredError(cfg, ops, id)
  {
    var before, op := ops[..|ops| - 1], ops[|ops| - 1];
    var s := Run(cfg, NEW_ENGINE, before);
    RunKeepsInv(cfg, before);
    StepStores(cfg, s, op, id);
    if id in s.tasks {
      HoldsWhatWasStored(cfg, before, id);
    }
  }

  /** The state a successful call leaves its task in. */
  function Target(op: Op): State
    requires HasEnv(op)
  {
    match op
    case Create(_, _, _, _) => Pending
    case Transition(_, newState, _) => newState
    case Complete(_, _, _) => Completed
    case Fail(_, _, _) => Failed
  }

  /** What a successful call of the mover's kind logs about its task. */
  function Told(op: Op, t: TaskView): Bytes
    requires HasEnv(op)
  {
    match op
    case Create(_, _, _, _) => t.payload
    case Transition(_, _, _) => t.payload
    case Complete(_, _, _) => t.result
    case Fail(_, _, _) => t.error
  }

  /** The last successful call about the task explains its state and the data of its last entry. */
  ghost predicate Explained(s: EngineState, id: string, mover: Option<Op>)
    requires id in s.tasks
  {
    && mover.Some? && HasEnv(mover.value)
    && s.tasks[id].state == Target(mover.value)
    && LastData(s.log.history, id) == Told(mover.value, s.tasks[id])
  }

  lemma LastDataGrows(es: seq<Entry>, e: Entry, id: string)
    ensures LastData(es + [e], id) == if e.taskId == id then e.data else LastData(es, id)
  {
    assert (es + [e])[..|es|] == es;
  }

  /** The effect writes an entry about `id`. */
  predicate Writes(effect: Effect, id: string) {
    (effect.Move? || effect.Birth?) && effect.t.id == id
  }

  lemma EffectExplained(cfg: Config, s: EngineState, s': EngineState, effect: Effect, op: Op, id: string,
                        mover: Option<Op>)
    requires Explains(cfg, s, s', effect) && id in s'.tasks
    requires !Writes(effect, id) ==> id in s.tasks && Explained(s, id, mover)
    requires effect.Birth? ==> op.Create?
    requires effect.Move? ==>
               || (op.Transition? && op.newState == effect.newState && effect.entry.data == effect.t.payload)
               || (op.Complete? && effect.newState == Completed && effect.entry.data == effect.t.result)
               || (op.Fail? && effect.newState == Failed && effect.entry.data == effect.t.error)
    ensures Explained(s', id, if Writes(effect, id) then Some(op) else mover)
  {
    if effect.Move? || effect.Birth? {
      LastDataGrows(s.log.history, effect.entry, id);
    }
  }

  /** One call more: it is the last mover exactly when it writes an entry about the task. */
  lemma CallExplained(cfg: Config, s: EngineState, op: Op, id: string, mover: Option<Op>)
    requires Inv(cfg, s) && id in Step(cfg, s, op).tasks
    requires id in s.tasks ==> Explained(s, id, mover)
    ensures Explained(Step(cfg, s, op), id,
                      if HasEnv(op) && Subject(op) == id && Do(cfg, s, op).answer.Success? then Some(op) else mover)
  {
    var effect := Explain(cfg, s, op);
    EffectExplained(cfg, s, Step(cfg, s, op), effect, op, id, mover);
  }

  lemma {:induction false} LastMoverExplains(cfg: Config, ops: seq<Op>, id: string)
    requires id in Run(cfg, NEW_ENGINE, ops).tasks
    ensures Explained(Run(cfg, NEW_ENGINE, ops), id, LastMover(cfg, ops, id))
  {
    var before, op := ops[..|ops| - 1], ops[|ops| - 1];
    var s := Run(cfg, NEW_ENGINE, before);
    RunKeepsInv(cfg, before);
    if id in s.tasks {
      LastMoverExplains(cfg, before, id);
    }
    CallExplained(cfg, s, op, id, LastMover(cfg, before, id));
  }

  /** What the task kept of its outcome is what its last entry holds. */
  ghost predicate OutcomeLogged(s: EngineState, id: string)
    requires id in s.tasks
  {
    && (s.tasks[id].state == Completed ==> s.tasks[id].result == LastData(s.log.history, id))
    && (s.tasks[id].state == Failed ==> s.tasks[id].error == LastData(s.log.history, id))
  }

  /**
   * In every run, with appends failing anywhere and ids reused: the result of a completed task and the error of a
   * failed one are in the log exactly when CompleteTask or FailTask finished it, or TransitionTask did and what was
   * stored last happens to be the payload, which TransitionTask logs in its place.
   */
  lemma {:induction false} OutcomeLoggedIff(cfg: Config, ops: seq<Op>, id: string)
    requires id in Run(cfg, NEW_ENGINE, ops).tasks
    ensures var s, mover := Run(cfg, NEW_ENGINE, ops), LastMover(cfg, ops, id);
            && mover.Some?
            && (OutcomeLogged(s, id) <==>
                (mover.value.Transition? ==>
                   && (mover.value.newState == Completed ==> StoredResult(cfg, ops, id) == s.tasks[id].payload)
                   && (mover.value.newState == Failed ==> StoredError(cfg, ops, id) == s.tasks[id].payload)))
  {
    LastMoverExplains(cfg, ops, id);
    HoldsWhatWasStored(cfg, ops, id);
  }

  /**
   * In every run GetTaskStatus tells both: about a completed task the error stored last too, and about a failed one
   * the result stored last. Each answer is clean exactly when nothing was left behind.
   */
  lemma {:induction false} AnswerIsCleanIff(cfg: Config, ops: seq<Op>, id: string)
    requires id in Run(cfg, NEW_ENGINE, ops).tasks
    requires Run(cfg, NEW_ENGINE, ops).tasks[id].state in {Completed, Failed}
    ensures var s := Run(cfg, NEW_ENGINE, ops);
            var completed, answer := s.tasks[id].state == Completed, StatusOf(s, id);
            var output, error := StoredResult(cfg, ops, id), StoredError(cfg, ops, id);
            && Tells(answer, completed, output, error)
            && (Tells(answer, true, output, "") <==> completed && error == "")
            && (Tells(answer, false, "", error) <==> !completed && output == "")
  {
    RunKeepsInv(cfg, ops);
    assert TaskInv(cfg, id, Run(cfg, NEW_ENGINE, ops).tasks[id]);
    HoldsWhatWasStored(cfg, ops, id);
  }
}
