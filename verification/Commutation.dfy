/** Calls about different tasks commute. */
module Commutation {
  import opened Results
  import opened TaskState
  import opened Tasks
  import opened Wal
  import opened Partition
  import opened EngineSpec
  import opened Recovery
  import opened PartialRecovery
  import opened History

  /** An entry without its number, which is all that swapping two appends changes. */
  function Bare(e: Entry): Entry {
    e.(sequence := 0)
  }

  function Bared(es: seq<Entry>): seq<Entry> {
    if es == [] then [] else Bared(es[..|es| - 1]) + [Bare(es[|es| - 1])]
  }

  lemma BaredGrows(es: seq<Entry>, e: Entry)
    ensures Bared(es + [e]) == Bared(es) + [Bare(e)]
  {
    assert (es + [e])[..|es|] == es;
  }

  lemma OneBared(es: seq<Entry>)
    requires |es| <= 1
    ensures Bared(es) == if es == [] then [] else [Bare(es[0])]
  {
    assert es != [] ==> es[..0] == [];
  }

  /** Recovery does not look at the numbers. */
  lemma {:induction false} RecoverBared(cfg: Config, es: seq<Entry>)
    ensures Recover(cfg, Bared(es)) == Recover(cfg, es)
  {
    if es != [] {
      var before, e := es[..|es| - 1], es[|es| - 1];
      RecoverBared(cfg, before);
      FoldSnoc(cfg, NOTHING, Bared(before), Bare(e));
    }
  }

  /** An engine that knows one task, or none, and whose log is empty. */
  function Alone(held: Option<TaskView>, id: string): EngineState {
    NEW_ENGINE.(tasks := if held.Some? then map[id := held.value] else map[])
  }

  /** What the call makes of its task, in an engine that knows no other. */
  function Own(cfg: Config, s: EngineState, op: Op): EngineState
    requires HasEnv(op)
  {
    Step(cfg, Alone(Held(s, Subject(op)), Subject(op)), op)
  }

  /**
   * A call depends on its own task only, changes only that one, and logs what it would log without the others,
   * numbered on.
   */
  ghost predicate Local(s: EngineState, s': EngineState, own: EngineState, id: string) {
    && Held(s', id) == Held(own, id)
    && (forall other :: other != id ==> Held(s', other) == Held(s, other))
    && |own.log.history| <= 1 && (own.log.history != [] ==> own.log.history[0].taskId == id)
    && s'.log.sequence == s.log.sequence + |own.log.history|
    && s'.counter == (if own.log.history == [] then s.counter else s'.log.sequence)
    && Bared(s'.log.history) == Bared(s.log.history) + Bared(own.log.history)
  }

  /** The entry that a log makes of a draft. */
  function Numbered(draft: Entry, now: int, number: nat): Entry {
    draft.(sequence := number, timestamp := now, committed := false)
  }

  lemma AppendShape(log: LogState, draft: Entry, now: int, storageUp: bool)
    ensures var appended := Persisted(log, draft, now, storageUp);
            if appended.answer.Success? then
              && storageUp && AppendTo(EMPTY_LOG, draft, now).answer.Success?
              && appended.answer.value == appended.log.sequence == log.sequence + 1
              && appended.log.history == log.history + [Numbered(draft, now, log.sequence + 1)]
            else
              && appended.log == log
              && (storageUp ==> appended.answer == AppendTo(EMPTY_LOG, draft, now).answer)
              && (!storageUp ==> appended.answer == Failure(StorageFailed))
  {
  }

  lemma BaredNumbered(es: seq<Entry>, draft: Entry, now: int, number: nat)
    ensures Bared(es + [Numbered(draft, now, number)]) == Bared(es) + Bared([Numbered(draft, now, 1)])
  {
    BaredGrows(es, Numbered(draft, now, number));
    OneBared([Numbered(draft, now, 1)]);
  }

  lemma AppendIsLocal(log: LogState, draft: Entry, now: int, storageUp: bool)
    ensures var here, alone := Persisted(log, draft, now, storageUp), Persisted(EMPTY_LOG, draft, now, storageUp);
            && (here.answer.Success? <==> alone.answer.Success?)
            && (here.answer.Failure? ==> here.answer == alone.answer && here.log == log && alone.log == EMPTY_LOG)
            && (here.answer.Success? ==>
                  && here.answer.value == here.log.sequence == log.sequence + 1
                  && alone.log.history == [Numbered(draft, now, 1)]
                  && Bared(here.log.history) == Bared(log.history) + Bared([Numbered(draft, now, 1)]))
  {
    AppendShape(log, draft, now, storageUp);
    AppendShape(EMPTY_LOG, draft, now, storageUp);
    BaredNumbered(log.history, draft, now, log.sequence + 1);
  }

  lemma EnterIsLocal(s: EngineState, t: TaskView, env: Env, held: Option<TaskView>)
    requires held == Held(s, t.id)
    ensures Local(s, Enter(s, t, env).state, Enter(Alone(held, t.id), t, env).state, t.id)
  {
    AppendIsLocal(s.log, Draft(t.id, t.workflowId, Pending, t.payload), env.t2, env.storageUp);
  }

  lemma RecordIsLocal(s: EngineState, id: string, t: TaskView, newState: State, data: Bytes, env: Env,
                      held: Option<TaskView>)
    requires Allowed(t.state, newState)
    ensures Local(s, Record(s, id, t, newState, data, env).state,
                  Record(Alone(held, id), id, t, newState, data, env).state, id)
  {
    AppendIsLocal(s.log, Draft(id, t.workflowId, newState, data), env.t0, env.storageUp);
  }

  lemma RecordAnswer(s: EngineState, id: string, t: TaskView, newState: State, data: Bytes, env: Env,
                     held: Option<TaskView>)
    requires Allowed(t.state, newState)
    ensures Record(s, id, t, newState, data, env).answer == Record(Alone(held, id), id, t, newState, data, env).answer
  {
    AppendIsLocal(s.log, Draft(id, t.workflowId, newState, data), env.t0, env.storageUp);
  }

  lemma EnterAnswer(s: EngineState, t: TaskView, env: Env, held: Option<TaskView>)
    ensures Enter(s, t, env).answer == Enter(Alone(held, t.id), t, env).answer
  {
    AppendIsLocal(s.log, Draft(t.id, t.workflowId, Pending, t.payload), env.t2, env.storageUp);
  }

  /** What a client is answered depends on the task its call is about only. */
  lemma {:induction false} AnswerIsLocal(cfg: Config, s: EngineState, op: Op)
    requires HasEnv(op)
    ensures Do(cfg, s, op).answer == Do(cfg, Alone(Held(s, Subject(op)), Subject(op)), op).answer
  {
    var id, held := Subject(op), Held(s, Subject(op));
    match op {
      case Create(w, name, payload, env) =>
        var partition := PartitionOf(cfg, id);
        if partition.Success? {
          EnterAnswer(s, NewTask(id, w, name, payload, env.t1).(partitionId := partition.value), env, held);
        }
      case Transition(_, newState, env) =>
        if held.Some? && Allowed(held.value.state, newState) {
          RecordAnswer(s, id, held.value, newState, held.value.payload, env, held);
        }
      case Complete(_, result, env) =>
        if held.Some? && held.value.state == Dispatched {
          RecordAnswer(s, id, held.value.(result := result), Completed, result, env, held);
        }
      case Fail(_, message, env) =>
        if held.Some? && held.value.state == Dispatched {
          RecordAnswer(s, id, held.value.(error := message), Failed, message, env, held);
        }
    }
  }

  lemma NothingIsLocal(s: EngineState, id: string)
    ensures Local(s, s, Alone(Held(s, id), id), id)
  {
  }

  lemma {:induction false} StepIsLocal(cfg: Config, s: EngineState, op: Op)
    requires HasEnv(op)
    ensures Local(s, Step(cfg, s, op), Own(cfg, s, op), Subject(op))
  {
    var id, held := Subject(op), Held(s, Subject(op));
    NothingIsLocal(s, id);
    match op {
      case Create(w, name, payload, env) =>
        var partition := PartitionOf(cfg, id);
        if partition.Success? {
          EnterIsLocal(s, NewTask(id, w, name, payload, env.t1).(partitionId := partition.value), env, held);
        }
      case Transition(_, newState, env) =>
        if held.Some? && Allowed(held.value.state, newState) {
          RecordIsLocal(s, id, held.value, newState, held.value.payload, env, held);
        }
      case Complete(_, result, env) =>
        if held.Some? && held.value.state == Dispatched {
          RecordIsLocal(s, id, held.value.(result := result), Completed, result, env, held);
        }
      case Fail(_, message, env) =>
        if held.Some? && held.value.state == Dispatched {
          RecordIsLocal(s, id, held.value.(error := message), Failed, message, env, held);
        }
    }
  }

  // ---------------------------------------------------------------- two calls about different tasks

  lemma {:induction false} KeepConcat(a: seq<Entry>, b: seq<Entry>, p: string -> bool)
    ensures Keep(a + b, p) == Keep(a, p) + Keep(b, p)
  {
    if b == [] {
      assert a + b == a;
    } else {
      var last := |b| - 1;
      KeepConcat(a, b[..last], p);
      assert (a + b)[..|a + b| - 1] == a + b[..last];
    }
  }

  /** Two logs that differ in the order of one entry of one task and one of another have the same projections. */
  lemma SwapKeepsProjections(es: seq<Entry>, a: seq<Entry>, b: seq<Entry>, idA: string, idB: string, id: string)
    requires |a| <= 1 && |b| <= 1 && idA != idB
    requires (a != [] ==> a[0].taskId == idA) && (b != [] ==> b[0].taskId == idB)
    ensures Projection(es + a + b, id) == Projection(es + b + a, id)
  {
    var p := (other: string) => other == id;
    KeepConcat(es + a, b, p);
    KeepConcat(es, a, p);
    KeepConcat(es + b, a, p);
    KeepConcat(es, b, p);
    assert idA != id ==> Keep(a, p) == [];
    assert idB != id ==> Keep(b, p) == [];
  }

  /** The tasks are the same, and the log is, task by task, but for the numbers. */
  ghost predicate SameTaskByTask(x: EngineState, y: EngineState) {
    && x.tasks == y.tasks && x.counter == y.counter && x.log.sequence == y.log.sequence
    && forall id :: Projection(Bared(x.log.history), id) == Projection(Bared(y.log.history), id)
  }

  lemma SameHeld(x: EngineState, y: EngineState)
    requires forall id :: Held(x, id) == Held(y, id)
    ensures x.tasks == y.tasks
  {
    forall id
      ensures id in x.tasks <==> id in y.tasks
      ensures id in x.tasks && id in y.tasks ==> x.tasks[id] == y.tasks[id]
    {
      assert Held(x, id) == Held(y, id);
    }
  }

  lemma Swapped(s: EngineState, sa: EngineState, sb: EngineState, x: EngineState, y: EngineState,
                ownA: EngineState, ownB: EngineState, a: string, b: string)
    requires a != b && s.counter == s.log.sequence
    requires Local(s, sa, ownA, a) && Local(sa, x, ownB, b)
    requires Local(s, sb, ownB, b) && Local(sb, y, ownA, a)
    ensures SameTaskByTask(x, y)
  {
    forall id ensures Held(x, id) == Held(y, id) {
    }
    SameHeld(x, y);
    OneBared(ownA.log.history);
    OneBared(ownB.log.history);
    forall id
      ensures Projection(Bared(x.log.history), id) == Projection(Bared(y.log.history), id)
    {
      SwapKeepsProjections(Bared(s.log.history), Bared(ownA.log.history), Bared(ownB.log.history), a, b, id);
    }
  }

  lemma {:induction false} SwapTwo(cfg: Config, s: EngineState, a: Op, b: Op)
    requires HasEnv(a) && HasEnv(b) && Subject(a) != Subject(b) && s.counter == s.log.sequence
    ensures var x, y := Run(cfg, s, [a, b]), Run(cfg, s, [b, a]);
            SameTaskByTask(x, y)
  {
    var sa, sb := Step(cfg, s, a), Step(cfg, s, b);
    var x, y := Step(cfg, sa, b), Step(cfg, sb, a);
    TwoCalls(cfg, s, a, b);
    TwoCalls(cfg, s, b, a);
    StepIsLocal(cfg, s, a);
    StepIsLocal(cfg, s, b);
    StepIsLocal(cfg, sa, b);
    StepIsLocal(cfg, sb, a);
    Swapped(s, sa, sb, x, y, Own(cfg, s, a), Own(cfg, s, b), Subject(a), Subject(b));
  }

  lemma OneMoreCall(cfg: Config, ops: seq<Op>, op: Op)
    ensures Run(cfg, NEW_ENGINE, ops + [op]) == Step(cfg, Run(cfg, NEW_ENGINE, ops), op)
  {
    assert (ops + [op])[..|ops|] == ops;
  }

  lemma AnswerUnmoved(cfg: Config, ops: seq<Op>, a: Op, b: Op)
    requires HasEnv(a) && HasEnv(b) && Subject(a) != Subject(b)
    ensures Do(cfg, Run(cfg, NEW_ENGINE, ops), a).answer == Do(cfg, Run(cfg, NEW_ENGINE, ops + [b]), a).answer
  {
    var s := Run(cfg, NEW_ENGINE, ops);
    OneMoreCall(cfg, ops, b);
    StepIsLocal(cfg, s, b);
    AnswerIsLocal(cfg, s, a);
    AnswerIsLocal(cfg, Step(cfg, s, b), a);
  }

  /**
   * Whatever two calls about different tasks are, it does not matter which of them gets the lock first: the tasks and
   * the counter come out the same, the log does task by task, and both clients are answered the same.
   */
  lemma {:induction false} CallsCommute(cfg: Config, ops: seq<Op>, a: Op, b: Op)
    requires HasEnv(a) && HasEnv(b) && Subject(a) != Subject(b)
    ensures SameTaskByTask(Run(cfg, NEW_ENGINE, ops + [a, b]), Run(cfg, NEW_ENGINE, ops + [b, a]))
    ensures Do(cfg, Run(cfg, NEW_ENGINE, ops), a).answer == Do(cfg, Run(cfg, NEW_ENGINE, ops + [b]), a).answer
    ensures Do(cfg, Run(cfg, NEW_ENGINE, ops), b).answer == Do(cfg, Run(cfg, NEW_ENGINE, ops + [a]), b).answer
  {
    AnswerUnmoved(cfg, ops, a, b);
    AnswerUnmoved(cfg, ops, b, a);
    RunKeepsInv(cfg, ops);
    SwapTwo(cfg, Run(cfg, NEW_ENGINE, ops), a, b);
    RunConcat(cfg, NEW_ENGINE, ops, [a, b]);
    RunConcat(cfg, NEW_ENGINE, ops, [b, a]);
  }

  /** So the logs rebuild the same tasks too. */
  lemma {:induction false} LogsCommute(cfg: Config, x: EngineState, y: EngineState)
    requires SameTaskByTask(x, y)
    ensures Recover(cfg, x.log.history).tasks == Recover(cfg, y.log.history).tasks
  {
    RecoverBared(cfg, x.log.history);
    RecoverBared(cfg, y.log.history);
    SameProjectionsSameTasks(cfg, Bared(x.log.history), Bared(y.log.history));
  }

  // ---------------------------------------------------------------- anywhere in a run

  /** The tasks of the next state depend on the tasks of this one only. */
  lemma TasksFollowTasks(cfg: Config, x: EngineState, y: EngineState, op: Op)
    requires x.tasks == y.tasks
    ensures Step(cfg, x, op).tasks == Step(cfg, y, op).tasks
  {
    if HasEnv(op) {
      StepIsLocal(cfg, x, op);
      StepIsLocal(cfg, y, op);
      SameHeld(Step(cfg, x, op), Step(cfg, y, op));
    }
  }

  lemma {:induction false} RunsFollowTasks(cfg: Config, x: EngineState, y: EngineState, ops: seq<Op>)
    requires x.tasks == y.tasks
    ensures Run(cfg, x, ops).tasks == Run(cfg, y, ops).tasks
  {
    if ops != [] {
      var before, op := ops[..|ops| - 1], ops[|ops| - 1];
      RunsFollowTasks(cfg, x, y, before);
      TasksFollowTasks(cfg, Run(cfg, x, before), Run(cfg, y, before), op);
    }
  }

  lemma RunThroughTwo(cfg: Config, before: seq<Op>, a: Op, b: Op, after: seq<Op>)
    ensures Run(cfg, NEW_ENGINE, before + [a, b] + after)
         == Run(cfg, Run(cfg, Run(cfg, NEW_ENGINE, before), [a, b]), after)
  {
    RunConcat(cfg, NEW_ENGINE, before + [a, b], after);
    RunConcat(cfg, NEW_ENGINE, before, [a, b]);
  }

  /** Swapping two neighbouring calls about different tasks, anywhere in a run, does not change the tasks at its end. */
  lemma {:induction false} SwapAnywhere(cfg: Config, before: seq<Op>, a: Op, b: Op, after: seq<Op>)
    requires HasEnv(a) && HasEnv(b) && Subject(a) != Subject(b)
    ensures Run(cfg, NEW_ENGINE, before + [a, b] + after).tasks == Run(cfg, NEW_ENGINE, before + [b, a] + after).tasks
  {
    var s := Run(cfg, NEW_ENGINE, before);
    RunKeepsInv(cfg, before);
    SwapTwo(cfg, s, a, b);
    RunThroughTwo(cfg, before, a, b, after);
    RunThroughTwo(cfg, before, b, a, after);
    RunsFollowTasks(cfg, Run(cfg, s, [a, b]), Run(cfg, s, [b, a]), after);
  }

  // ---------------------------------------------------------------- an engine on a log that holds entries

  /** The index of the next state depends on tasks and index of this one only. */
  lemma IndexFollows(cfg: Config, x: EngineState, y: EngineState, op: Op)
    requires x.tasks == y.tasks && x.workflowTasks == y.workflowTasks
    ensures Step(cfg, x, op).workflowTasks == Step(cfg, y, op).workflowTasks
  {
    if op.Create? {
      AnswerIsLocal(cfg, x, op);
      AnswerIsLocal(cfg, y, op);
      CreateEnlists(cfg, x, op);
      CreateEnlists(cfg, y, op);
    }
  }

  lemma CreateEnlists(cfg: Config, s: EngineState, op: Op)
    requires op.Create?
    ensures Step(cfg, s, op).workflowTasks ==
            if Creates(cfg, s, op) then Enlist(s.workflowTasks, op.workflowId, NewId(op)) else s.workflowTasks
  {
  }

  /** `s` is what `own`, an engine that began on an empty log, is on a log that began as `log`. */
  ghost predicate Upon(log: LogState, s: EngineState, own: EngineState) {
    && s.tasks == own.tasks && s.workflowTasks == own.workflowTasks
    && s.log.sequence == log.sequence + own.log.sequence
    && Bared(s.log.history) == Bared(log.history) + Bared(own.log.history)
    && s.counter == (if own.log.sequence == 0 then 0 else s.log.sequence)
    && own.counter == own.log.sequence
  }

  lemma LocalUpon(log: LogState, s: EngineState, own: EngineState, s': EngineState, own': EngineState,
                  alone: EngineState, id: string)
    requires Upon(log, s, own) && Local(s, s', alone, id) && Local(own, own', alone, id)
    requires s'.tasks == own'.tasks && s'.workflowTasks == own'.workflowTasks
    ensures Upon(log, s', own')
  {
    assert Bared(log.history) + Bared(own.log.history) + Bared(alone.log.history)
        == Bared(log.history) + (Bared(own.log.history) + Bared(alone.log.history));
  }

  lemma LogCallUpon(cfg: Config, log: LogState, s: EngineState, own: EngineState, op: Op)
    requires Upon(log, s, own) && !HasEnv(op)
    ensures Upon(log, Step(cfg, s, op), Step(cfg, own, op))
  {
  }

  lemma StepUpon(cfg: Config, log: LogState, s: EngineState, own: EngineState, op: Op)
    requires Upon(log, s, own)
    ensures Upon(log, Step(cfg, s, op), Step(cfg, own, op))
  {
    if HasEnv(op) {
      IndexFollows(cfg, s, own, op);
      TasksFollowTasks(cfg, s, own, op);
      StepIsLocal(cfg, s, op);
      StepIsLocal(cfg, own, op);
      assert Held(s, Subject(op)) == Held(own, Subject(op));
      LocalUpon(log, s, own, Step(cfg, s, op), Step(cfg, own, op), Own(cfg, s, op), Subject(op));
    } else {
      LogCallUpon(cfg, log, s, own, op);
    }
  }

  /**
   * NewEngine takes any logger and does not read what it holds. On a log with entries an engine does what it does on an
   * empty one, with its entries numbered on; only its counter is behind the log until its first own entry.
   */
  lemma {:induction false} UsedLogger(cfg: Config, log: LogState, ops: seq<Op>)
    ensures var s, own := Run(cfg, EngineOn(log), ops), Run(cfg, NEW_ENGINE, ops);
            && Upon(log, s, own)
            && (s.counter == s.log.sequence <==> log.sequence == 0 || own.log.sequence > 0)
  {
    if ops == [] {
      assert Bared(log.history) + [] == Bared(log.history);
    } else {
      var before, op := ops[..|ops| - 1], ops[|ops| - 1];
      UsedLogger(cfg, log, before);
      StepUpon(cfg, log, Run(cfg, EngineOn(log), before), Run(cfg, NEW_ENGINE, before), op);
    }
  }
}
