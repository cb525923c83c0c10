/** What workers report and what clients are told (internal/gateway/gateway.go). */
module Gateway {
  import opened Results
  import opened TaskState
  import opened Tasks
  import opened Wal
  import opened Partition
  import opened EngineSpec
  import opened Interleaving
  import opened Recovery
  import opened History
  import opened Executor

  datatype TaskResult = TaskResult(taskId: string, success: bool, output: Bytes, error: Bytes)

  /** The engine calls a message from a worker leads to: none when it is nil. */
  function Calls(result: Option<TaskResult>, env: Env): seq<Op> {
    match result
    case None => []
    case Some(r) => [if r.success then Complete(r.taskId, r.output, env) else Fail(r.taskId, r.error, env)]
  }

  datatype Answer = Answer(taskId: string, status: State, outcome: Option<Outcome>)
  datatype Outcome = Outcome(taskId: string, success: bool, output: Bytes, error: Bytes, completedAt: int)

  const NANOS_PER_SECOND := 1_000_000_000

  function Answered(t: TaskView): Answer {
    Answer(t.id, t.state,
           if t.state == Completed || t.state == Failed
           then Some(Outcome(t.id, t.state == Completed, t.result, t.error, t.updatedAt / NANOS_PER_SECOND))
           else None)
  }

  function StatusOf(s: EngineState, id: string): Result<Answer> {
    var found := GetReply(s, id);
    if found.Failure? then Failure(found.error) else Success(Answered(found.value))
  }

  // ---------------------------------------------------------------- the first result wins

  /** The call reports a result or an error of task `id`. */
  predicate Reports(op: Op, id: string) {
    (op.Complete? || op.Fail?) && op.id == id
  }

  /** The position of the first report about `id` that reaches the log, or the number of calls. */
  function Decisive(ops: seq<Op>, id: string): (k: nat)
    ensures k <= |ops| && (k < |ops| ==> Reports(ops[k], id) && ops[k].env.storageUp)
    ensures forall i :: 0 <= i < k ==> !(Reports(ops[i], id) && ops[i].env.storageUp)
  {
    if ops == [] then 0 else
      var last := |ops| - 1;
      var earlier := Decisive(ops[..last], id);
      assert forall i :: 0 <= i < last ==> ops[..last][i] == ops[i];
      if earlier < last || (Reports(ops[last], id) && ops[last].env.storageUp) then earlier else |ops|
  }

  /** The result stored last, which stays in the task even when the log refused it. */
  function LeftoverResult(ops: seq<Op>, id: string, before: Bytes): Bytes {
    if ops == [] then before else
      var op := ops[|ops| - 1];
      if op.Complete? && op.id == id then op.result else LeftoverResult(ops[..|ops| - 1], id, before)
  }

  /** The error message stored last, likewise. */
  function LeftoverError(ops: seq<Op>, id: string, before: Bytes): Bytes {
    if ops == [] then before else
      var op := ops[|ops| - 1];
      if op.Fail? && op.id == id then op.message else LeftoverError(ops[..|ops| - 1], id, before)
  }

  function Verdict(op: Op): State {
    if op.Complete? then Completed else Failed
  }

  /** What the calls make of a task that was `t`, dispatched, with the history `path`. */
  ghost predicate Decided(t: TaskView, t': TaskView, path: seq<State>, path': seq<State>, ops: seq<Op>, id: string) {
    var k := Decisive(ops, id);
    if k == |ops| then
      && t' == t.(result := LeftoverResult(ops, id, t.result), error := LeftoverError(ops, id, t.error))
      && path' == path
    else
      && t'.state == Verdict(ops[k]) && t'.attempts == t.attempts
      && t'.result == (if ops[k].Complete? then ops[k].result else LeftoverResult(ops[..k], id, t.result))
      && t'.error == (if ops[k].Fail? then ops[k].message else LeftoverError(ops[..k], id, t.error))
      && path' == path + [Verdict(ops[k])]
  }

  /** What one report does to a dispatched task. */
  ghost predicate Takes(t: TaskView, t': TaskView, path: seq<State>, path': seq<State>, op: Op)
    requires op.Complete? || op.Fail?
  {
    && t'.result == (if op.Complete? then op.result else t.result)
    && t'.error == (if op.Fail? then op.message else t.error)
    && if op.env.storageUp then t'.state == Verdict(op) && t'.attempts == t.attempts && path' == path + [Verdict(op)]
       else t' == t.(result := t'.result, error := t'.error) && path' == path
  }

  /** The task with what the report stores in it. */
  function Reported(t: TaskView, op: Op): TaskView
    requires op.Complete? || op.Fail?
  {
    if op.Complete? then t.(result := op.result) else t.(error := op.message)
  }

  lemma ReportIsRecord(cfg: Config, s: EngineState, op: Op, id: string)
    requires Reports(op, id) && id != "" && id in s.tasks && s.tasks[id].state == Dispatched
    ensures var data := if op.Complete? then op.result else op.message;
            Step(cfg, s, op) == Record(s, id, Reported(s.tasks[id], op), Verdict(op), data, op.env).state
  {
  }

  lemma ReportTaken(cfg: Config, s: EngineState, op: Op, id: string)
    requires Inv(cfg, s) && Reports(op, id) && id in s.tasks && s.tasks[id].state == Dispatched
    ensures var s' := Step(cfg, s, op);
            && id in s'.tasks
            && Takes(s.tasks[id], s'.tasks[id], States(s.log.history, id), States(s'.log.history, id), op)
  {
    assert TaskInv(cfg, id, s.tasks[id]);
    ReportIsRecord(cfg, s, op, id);
    var data := if op.Complete? then op.result else op.message;
    var effect := ExplainRecord(cfg, s, id, Reported(s.tasks[id], op), Verdict(op), data, op.env);
    EffectTakes(cfg, s, Step(cfg, s, op), effect, op, id);
  }

  lemma EffectTakes(cfg: Config, s: EngineState, s': EngineState, effect: Effect, op: Op, id: string)
    requires Reports(op, id) && id in s.tasks && s.tasks[id].id == id && s.tasks[id].state == Dispatched
    requires Explains(cfg, s, s', effect)
    requires var t := Reported(s.tasks[id], op);
             if op.env.storageUp then effect.Move? && effect.t == t && effect.newState == Verdict(op)
             else effect == if t == s.tasks[id] then Quiet else Touch(t)
    ensures id in s'.tasks
    ensures Takes(s.tasks[id], s'.tasks[id], States(s.log.history, id), States(s'.log.history, id), op)
  {
    EffectOnOne(cfg, s, s', effect, id);
  }

  /** Other calls leave the task alone, and so does a report when it is not dispatched. */
  lemma OtherCall(cfg: Config, s: EngineState, op: Op, id: string)
    requires Inv(cfg, s) && id in s.tasks && !Remakes(cfg, s, op, id) && !(op.Transition? && op.id == id)
    requires !Reports(op, id) || s.tasks[id].state != Dispatched
    ensures var s' := Step(cfg, s, op);
            && id in s'.tasks && s'.tasks[id] == s.tasks[id]
            && States(s'.log.history, id) == States(s.log.history, id)
  {
    var effect := Explain(cfg, s, op);
    EffectOnOne(cfg, s, Step(cfg, s, op), effect, id);
  }

  lemma DecidedStep(t: TaskView, mid: TaskView, t': TaskView, path: seq<State>, midPath: seq<State>, path': seq<State>,
                    ops: seq<Op>, id: string)
    requires ops != [] && t.state == Dispatched
    requires Decided(t, mid, path, midPath, ops[..|ops| - 1], id)
    requires var op := ops[|ops| - 1];
             if Reports(op, id) && mid.state == Dispatched then Takes(mid, t', midPath, path', op)
             else t' == mid && path' == midPath
    ensures Decided(t, t', path, path', ops, id)
  {
    var before, k := ops[..|ops| - 1], Decisive(ops, id);
    if k < |ops| {
      assert ops[..k] == before[..k];
    }
    assert before[..|before|] == before;
  }

  /**
   * Any calls by any clients after a task was dispatched, with duplicate and contradicting results, refused writes,
   * and whatever happens to other tasks and to the log, as long as TransitionTask is not called for this one: the
   * first report that reaches the log decides the state, it alone is logged, and later ones change nothing. Reports
   * that were refused before leave their result or error behind.
   */
  lemma {:induction false} FirstResultWins(cfg: Config, s: EngineState, ops: seq<Op>, id: string)
    requires Inv(cfg, s) && id in s.tasks && s.tasks[id].state == Dispatched
    requires NotRemade(cfg, s, ops, id) && forall i :: 0 <= i < |ops| && ops[i].Transition? ==> ops[i].id != id
    ensures var s' := Run(cfg, s, ops);
            && Inv(cfg, s') && id in s'.tasks
            && Decided(s.tasks[id], s'.tasks[id], States(s.log.history, id), States(s'.log.history, id), ops, id)
  {
    if ops != [] {
      var before, op := ops[..|ops| - 1], ops[|ops| - 1];
      FirstResultWins(cfg, s, before, id);
      var mid, s' := Run(cfg, s, before), Run(cfg, s, ops);
      StepKeepsInv(cfg, mid, op);
      if Reports(op, id) && mid.tasks[id].state == Dispatched {
        ReportTaken(cfg, mid, op, id);
      } else {
        OtherCall(cfg, mid, op, id);
      }
      DecidedStep(s.tasks[id], mid.tasks[id], s'.tasks[id],
                  States(s.log.history, id), States(mid.log.history, id), States(s'.log.history, id), ops, id);
    }
  }

  /** The answer about the task has the outcome `output` and `error`, and says whether it succeeded. */
  ghost predicate Tells(answer: Result<Answer>, success: bool, output: Bytes, error: Bytes) {
    && answer.Success? && answer.value.outcome.Some?
    && answer.value.outcome.value.success == success
    && answer.value.outcome.value.output == output
    && answer.value.outcome.value.error == error
  }

  /**
   * The answer about a task that a success completed has its output. It should carry no error, but it carries the
   * message stored last in the task: it is clean exactly when no earlier FailTask, refused by the log, left one.
   */
  lemma {:induction false} CompletedAnswerIsCleanIff(cfg: Config, s: EngineState, ops: seq<Op>, id: string)
    requires Inv(cfg, s) && id in s.tasks && s.tasks[id].state == Dispatched
    requires NotRemade(cfg, s, ops, id) && forall i :: 0 <= i < |ops| && ops[i].Transition? ==> ops[i].id != id
    requires var k := Decisive(ops, id); k < |ops| && ops[k].Complete?
    ensures var k, answer := Decisive(ops, id), StatusOf(Run(cfg, s, ops), id);
            var error := LeftoverError(ops[..k], id, s.tasks[id].error);
            && Tells(answer, true, ops[k].result, error)
            && (Tells(answer, true, ops[k].result, "") <==> error == "")
  {
    FirstResultWins(cfg, s, ops, id);
    assert TaskInv(cfg, id, s.tasks[id]);
  }

  /** The same for a failure: its answer carries the output that an earlier, refused CompleteTask left. */
  lemma {:induction false} FailedAnswerIsCleanIff(cfg: Config, s: EngineState, ops: seq<Op>, id: string)
    requires Inv(cfg, s) && id in s.tasks && s.tasks[id].state == Dispatched
    requires NotRemade(cfg, s, ops, id) && forall i :: 0 <= i < |ops| && ops[i].Transition? ==> ops[i].id != id
    requires var k := Decisive(ops, id); k < |ops| && ops[k].Fail?
    ensures var k, answer := Decisive(ops, id), StatusOf(Run(cfg, s, ops), id);
            var output := LeftoverResult(ops[..k], id, s.tasks[id].result);
            && Tells(answer, false, output, ops[k].message)
            && (Tells(answer, false, "", ops[k].message) <==> output == "")
  {
    FirstResultWins(cfg, s, ops, id);
    assert TaskInv(cfg, id, s.tasks[id]);
  }

  // ---------------------------------------------------------------- messages

  /** What a worker sends, with what the call it leads to gets from outside. */
  datatype Message = Message(result: Option<TaskResult>, env: Env)

  /** The engine calls of any number of messages, in order. */
  function CallsOf(msgs: seq<Message>): seq<Op> {
    if msgs == [] then [] else
      var m := msgs[|msgs| - 1];
      CallsOf(msgs[..|msgs| - 1]) + Calls(m.result, m.env)
  }

  predicate About(m: Message, id: string) {
    m.result.Some? && m.result.value.taskId == id
  }

  /** The position of the first message about `id` that the log takes, or the number of messages. */
  function FirstTaken(msgs: seq<Message>, id: string): (k: nat)
    ensures k <= |msgs| && (k < |msgs| ==> About(msgs[k], id) && msgs[k].env.storageUp)
    ensures forall i :: 0 <= i < k ==> !(About(msgs[i], id) && msgs[i].env.storageUp)
  {
    if msgs == [] then 0 else
      var last := |msgs| - 1;
      var earlier := FirstTaken(msgs[..last], id);
      assert forall i :: 0 <= i < last ==> msgs[..last][i] == msgs[i];
      if earlier < last || (About(msgs[last], id) && msgs[last].env.storageUp) then earlier else |msgs|
  }

  /** The output of the last success reported about the task. */
  function LastOutput(msgs: seq<Message>, id: string, before: Bytes): Bytes {
    if msgs == [] then before else
      var m := msgs[|msgs| - 1];
      if About(m, id) && m.result.value.success then m.result.value.output
      else LastOutput(msgs[..|msgs| - 1], id, before)
  }

  /** The error of the last failure reported about it. */
  function LastError(msgs: seq<Message>, id: string, before: Bytes): Bytes {
    if msgs == [] then before else
      var m := msgs[|msgs| - 1];
      if About(m, id) && !m.result.value.success then m.result.value.error
      else LastError(msgs[..|msgs| - 1], id, before)
  }

  function Flagged(success: bool): State {
    if success then Completed else Failed
  }

  /** What the messages make of a dispatched task. */
  ghost predicate Settled(t: TaskView, t': TaskView, path: seq<State>, path': seq<State>, msgs: seq<Message>,
                          id: string) {
    var k := FirstTaken(msgs, id);
    if k == |msgs| then
      && t' == t.(result := LastOutput(msgs, id, t.result), error := LastError(msgs, id, t.error))
      && path' == path
    else
      var r := msgs[k].result.value;
      && t'.id == t.id && t'.state == Flagged(r.success) && t'.attempts == t.attempts
      && t'.result == (if r.success then r.output else LastOutput(msgs[..k], id, t.result))
      && t'.error == (if r.success then LastError(msgs[..k], id, t.error) else r.error)
      && path' == path + [Flagged(r.success)]
  }

  /** What one message makes of a dispatched task that it is about. */
  ghost predicate Settles(t: TaskView, t': TaskView, path: seq<State>, path': seq<State>, r: TaskResult, taken: bool) {
    && t'.id == t.id
    && t'.result == (if r.success then r.output else t.result)
    && t'.error == (if r.success then t.error else r.error)
    && if taken then
         t'.state == Flagged(r.success) && t'.attempts == t.attempts && path' == path + [Flagged(r.success)]
       else t' == t.(result := t'.result, error := t'.error) && path' == path
  }

  lemma OneMessage(cfg: Config, s: EngineState, m: Message, id: string)
    requires Inv(cfg, s) && id in s.tasks
    ensures var s' := Run(cfg, s, Calls(m.result, m.env));
            var path, path' := States(s.log.history, id), States(s'.log.history, id);
            && Inv(cfg, s') && id in s'.tasks
            && if About(m, id) && s.tasks[id].state == Dispatched
               then Settles(s.tasks[id], s'.tasks[id], path, path', m.result.value, m.env.storageUp)
               else s'.tasks[id] == s.tasks[id] && path' == path
  {
    if m.result.Some? {
      var r := m.result.value;
      var op := if r.success then Complete(r.taskId, r.output, m.env) else Fail(r.taskId, r.error, m.env);
      OneCall(cfg, s, op);
      StepKeepsInv(cfg, s, op);
      if r.taskId == id && s.tasks[id].state == Dispatched {
        ReportTaken(cfg, s, op, id);
        TakenSettles(cfg, s, Step(cfg, s, op), r, m.env, op, id);
      } else {
        OtherCall(cfg, s, op, id);
      }
    }
  }

  lemma TakenSettles(cfg: Config, s: EngineState, s': EngineState, r: TaskResult, env: Env, op: Op, id: string)
    requires Inv(cfg, s) && Inv(cfg, s') && id in s.tasks && id in s'.tasks
    requires op == if r.success then Complete(r.taskId, r.output, env) else Fail(r.taskId, r.error, env)
    requires Takes(s.tasks[id], s'.tasks[id], States(s.log.history, id), States(s'.log.history, id), op)
    ensures Settles(s.tasks[id], s'.tasks[id], States(s.log.history, id), States(s'.log.history, id), r, env.storageUp)
  {
    assert TaskInv(cfg, id, s.tasks[id]) && TaskInv(cfg, id, s'.tasks[id]);
  }

  lemma SettledStep(t: TaskView, mid: TaskView, t': TaskView, path: seq<State>, midPath: seq<State>, path': seq<State>,
                    msgs: seq<Message>, id: string)
    requires msgs != [] && t.state == Dispatched
    requires Settled(t, mid, path, midPath, msgs[..|msgs| - 1], id)
    requires var m := msgs[|msgs| - 1];
             if About(m, id) && mid.state == Dispatched
             then Settles(mid, t', midPath, path', m.result.value, m.env.storageUp)
             else t' == mid && path' == midPath
    ensures Settled(t, t', path, path', msgs, id)
  {
    var before, k := msgs[..|msgs| - 1], FirstTaken(msgs, id);
    if k < |msgs| {
      assert msgs[..k] == before[..k];
    }
    assert before[..|before|] == before;
  }

  /**
   * Of any messages about any tasks, duplicates and contradictions among them, that arrive after a task was dispatched,
   * the first one about it that the log takes decides: by its success flag, with its output or its error.
   */
  lemma {:induction false} FirstMessageWins(cfg: Config, s: EngineState, msgs: seq<Message>, id: string)
    requires Inv(cfg, s) && id in s.tasks && s.tasks[id].state == Dispatched
    ensures var s' := Run(cfg, s, CallsOf(msgs));
            && Inv(cfg, s') && id in s'.tasks
            && Settled(s.tasks[id], s'.tasks[id], States(s.log.history, id), States(s'.log.history, id), msgs, id)
  {
    if msgs != [] {
      var before, m := msgs[..|msgs| - 1], msgs[|msgs| - 1];
      FirstMessageWins(cfg, s, before, id);
      var mid, s' := Run(cfg, s, CallsOf(before)), Run(cfg, s, CallsOf(msgs));
      RunConcat(cfg, s, CallsOf(before), Calls(m.result, m.env));
      OneMessage(cfg, mid, m, id);
      SettledStep(s.tasks[id], mid.tasks[id], s'.tasks[id],
                  States(s.log.history, id), States(mid.log.history, id), States(s'.log.history, id), msgs, id);
    }
  }

  // ---------------------------------------------------------------- what a client is told

  /** The answer is about this task, as it is. */
  ghost predicate TellsTask(answer: Answer, id: string, t: TaskView) {
    && answer.taskId == id && answer.status == t.state
    && (answer.outcome.Some? <==> t.state in {Completed, Failed})
    && (answer.outcome.Some? ==>
          var told := answer.outcome.value;
          && told.taskId == id && (told.success <==> t.state == Completed)
          && told.output == t.result && told.error == t.error
          && told.completedAt * NANOS_PER_SECOND <= t.updatedAt < (told.completedAt + 1) * NANOS_PER_SECOND)
  }

  /** GetTaskStatus succeeds exactly for the ids of tasks and then tells the task; else it tells what was wrong. */
  lemma StatusTellsTheTask(cfg: Config, s: EngineState, id: string)
    requires Inv(cfg, s)
    ensures var answer := StatusOf(s, id);
            && (answer.Success? <==> id in s.tasks)
            && (answer.Success? ==> TellsTask(answer.value, id, s.tasks[id]))
            && (answer == Failure(MissingTaskId) <==> id == "")
            && (answer == Failure(TaskNotFound) <==> id != "" && id !in s.tasks)
  {
    assert id in s.tasks ==> TaskInv(cfg, id, s.tasks[id]);
  }

  /** End to end: what clients are told after such messages. */
  lemma {:induction false} ClientsAreToldTheFirst(cfg: Config, s: EngineState, msgs: seq<Message>, id: string)
    requires Inv(cfg, s) && id in s.tasks && s.tasks[id].state == Dispatched
    requires FirstTaken(msgs, id) < |msgs|
    ensures var r, answer := msgs[FirstTaken(msgs, id)].result.value, StatusOf(Run(cfg, s, CallsOf(msgs)), id);
            && answer.Success? && answer.value.taskId == id && answer.value.status == Flagged(r.success)
            && answer.value.outcome.Some? && answer.value.outcome.value.success == r.success
            && (r.success ==> answer.value.outcome.value.output == r.output)
            && (!r.success ==> answer.value.outcome.value.error == r.error)
  {
    FirstMessageWins(cfg, s, msgs, id);
    StatusTellsTheTask(cfg, Run(cfg, s, CallsOf(msgs)), id);
  }

  // ---------------------------------------------------------------- final answers

  lemma StatusAfter(cfg: Config, s: EngineState, ops: seq<Op>, k: nat, id: string)
    requires Inv(cfg, s) && k <= |ops| && NotRemade(cfg, s, ops[..k], id)
    requires var a := StatusOf(s, id); a.Success? && IsTerminal(a.value.status)
    ensures StatusOf(Run(cfg, s, ops[..k]), id) == StatusOf(s, id)
  {
    TasksOnlyEvolve(cfg, s, ops[..k], id);
  }

  lemma {:induction false} PrefixNotRemade(cfg: Config, s: EngineState, ops: seq<Op>, k: nat, id: string)
    requires NotRemade(cfg, s, ops, id) && k <= |ops|
    ensures NotRemade(cfg, s, ops[..k], id)
  {
    if k == |ops| {
      assert ops[..k] == ops;
    } else {
      PrefixNotRemade(cfg, s, ops[..|ops| - 1], k, id);
      assert ops[..|ops| - 1][..k] == ops[..k];
    }
  }

  /** A create that overwrites a task makes its status PENDING. */
  lemma {:induction false} RemadeIsPending(cfg: Config, s: EngineState, ops: seq<Op>, id: string) returns (k: nat)
    requires Inv(cfg, s) && id != "" && !NotRemade(cfg, s, ops, id)
    ensures k <= |ops|
    ensures var a := StatusOf(Run(cfg, s, ops[..k]), id); a.Success? && a.value.status == Pending
  {
    var before, op := ops[..|ops| - 1], ops[|ops| - 1];
    if NotRemade(cfg, s, before, id) {
      k := |ops|;
      assert ops[..k] == ops;
      RunKeepsInvFrom(cfg, s, before);
      var effect := Explain(cfg, Run(cfg, s, before), op);
    } else {
      k := RemadeIsPending(cfg, s, before, id);
      assert before[..k] == ops[..k];
    }
  }

  /** Once the status is final, GetTaskStatus goes on answering the same exactly as long as no create reuses the id. */
  lemma {:induction false} FinalAnswerNeverChangesIff(cfg: Config, s: EngineState, ops: seq<Op>, id: string)
    requires Inv(cfg, s)
    requires var a := StatusOf(s, id); a.Success? && IsTerminal(a.value.status)
    ensures (forall k :: 0 <= k <= |ops| ==> StatusOf(Run(cfg, s, ops[..k]), id) == StatusOf(s, id)) <==>
            NotRemade(cfg, s, ops, id)
  {
    if NotRemade(cfg, s, ops, id) {
      forall k | 0 <= k <= |ops|
        ensures StatusOf(Run(cfg, s, ops[..k]), id) == StatusOf(s, id)
      {
        PrefixNotRemade(cfg, s, ops, k, id);
        StatusAfter(cfg, s, ops, k, id);
      }
    } else {
      var k := RemadeIsPending(cfg, s, ops, id);
      assert StatusOf(Run(cfg, s, ops[..k]), id) != StatusOf(s, id);
    }
  }

  /** What GetTaskStatus answers when other clients make `calls` between its lookup and its copy. */
  ghost function LateStatus(cfg: Config, s: EngineState, calls: seq<Op>, id: string): Result<Answer> {
    var found := GetReply(s, id);
    if found.Failure? then Failure(found.error) else Success(Answered(Follow(cfg, s, calls, id)))
  }

  lemma LateStatusFollows(cfg: Config, s: EngineState, calls: seq<Op>, id: string)
    requires Inv(cfg, s) && id in s.tasks
    ensures LateStatus(cfg, s, calls, id) == Success(Answered(Follow(cfg, s, calls, id)))
    ensures StatusOf(s, id) == Success(Answered(s.tasks[id]))
  {
    assert TaskInv(cfg, id, s.tasks[id]);
  }

  lemma StatusIsAnswered(cfg: Config, s: EngineState, calls: seq<Op>, id: string)
    requires Inv(cfg, s) && id in s.tasks
    ensures id in Run(cfg, s, calls).tasks
    ensures StatusOf(Run(cfg, s, calls), id) == Success(Answered(Run(cfg, s, calls).tasks[id]))
  {
    RunKeepsTasks(cfg, s, calls);
    assert TaskInv(cfg, id, s.tasks[id]);
  }

  lemma FinalTaskStays(was: TaskView, now: TaskView, more: seq<State>)
    requires Evolved(was, now, more) && IsTerminal(was.state)
    ensures Answered(now) == Answered(was)
  {
    FinalEnds(was.state, more);
  }

  /**
   * A late answer is the status after the calls, unless one of them overwrites the task; and about a final task it is
   * the status before them, whatever they are.
   */
  lemma {:induction false} LateStatusIs(cfg: Config, s: EngineState, calls: seq<Op>, id: string)
    requires Inv(cfg, s) && id in s.tasks
    ensures NotRemade(cfg, s, calls, id) ==> LateStatus(cfg, s, calls, id) == StatusOf(Run(cfg, s, calls), id)
    ensures IsTerminal(s.tasks[id].state) ==> LateStatus(cfg, s, calls, id) == StatusOf(s, id)
  {
    LateStatusFollows(cfg, s, calls, id);
    if NotRemade(cfg, s, calls, id) {
      FollowWhileKept(cfg, s, calls, id);
      StatusIsAnswered(cfg, s, calls, id);
    }
    if IsTerminal(s.tasks[id].state) {
      SelectedTaskEvolves(cfg, s, calls, id);
      FinalTaskStays(s.tasks[id], Follow(cfg, s, calls, id), LoggedSince(cfg, s, calls, id));
    }
  }

  // ---------------------------------------------------------------- the services

  class WorkerServiceHandler {
    const engine: Engine

    constructor (engine: Engine)
      ensures this.engine == engine
    {
      this.engine := engine;
    }

    method HandleTaskResult(result: Option<TaskResult>, env: Env)
      requires engine.Valid()
      modifies engine, engine.walLogger, engine.walLogger.buffer, engine.kept
      ensures engine.Valid()
      ensures engine.View() == Run(engine.partitionMgr.Cfg(), old(engine.View()), Calls(result, env))
    {
      if result.None? {
        return;
      }
      var r := result.value;
      assert Calls(result, env)[..0] == [];
      if r.success {
        var _ := engine.CompleteTask(r.taskId, r.output, env);
      } else {
        var _ := engine.FailTask(r.taskId, r.error, env);
      }
    }
  }

  class GatewayService {
    const engine: Engine

    constructor (engine: Engine)
      ensures this.engine == engine
    {
      this.engine := engine;
    }

    /** `others` is what other clients call between the lookup of the task and its copy. */
    method GetTaskStatus(taskId: string, others: seq<Op>) returns (answer: Result<Answer>)
      requires engine.Valid()
      modifies engine, engine.walLogger, engine.walLogger.buffer, engine.kept
      ensures engine.Valid()
      ensures answer == LateStatus(engine.partitionMgr.Cfg(), old(engine.View()), others, taskId)
      ensures engine.View() == if answer.Failure? then old(engine.View())
                               else Run(engine.partitionMgr.Cfg(), old(engine.View()), others)
    {
      if taskId == "" {
        return Failure(MissingTaskId);
      }
      var found := engine.GetTask(taskId, others);
      if found.Failure? {
        return Failure(found.error);
      }
      var t := found.value;
      var outcome: Option<Outcome> := None;
      if t.state == Completed || t.state == Failed {
        outcome := Some(Outcome(t.id, t.state == Completed, t.result, t.error, t.updatedAt / NANOS_PER_SECOND));
      }
      return Success(Answer(t.id, t.state, outcome));
    }
  }
}
