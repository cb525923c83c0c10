/** The life of one task: its entries in the log, and what no later call can change. */
module History {
  import opened Results
  import opened TaskState
  import opened Tasks
  import opened Wal
  import opened Partition
  import opened EngineSpec
  import opened Interleaving
  import opened Recovery
  import TaskId

  /** The states the log records for one task, in order. */
  function States(es: seq<Entry>, id: string): seq<State> {
    if es == [] then [] else
      States(es[..|es| - 1], id) + if es[|es| - 1].taskId == id then [es[|es| - 1].state] else []
  }

  /** A path of states fits what the engine holds of a task. */
  ghost predicate Fits(path: seq<State>, held: Option<TaskView>) {
    match held
    case None => path == []
    case Some(t) => LegalPath(path) && path[|path| - 1] == t.state && DispatchCount(path) == t.attempts
  }

  function Held(s: EngineState, id: string): Option<TaskView> {
    if id in s.tasks then Some(s.tasks[id]) else None
  }

  ghost predicate HistoryFits(s: EngineState, id: string) {
    Fits(States(s.log.history, id), Held(s, id))
  }

  lemma DispatchesGrow(path: seq<State>, next: State)
    ensures DispatchCount(path + [next]) == DispatchCount(path) + if next == Dispatched then 1 else 0
  {
    assert (path + [next])[..|path|] == path;
  }

  lemma PathGrowsIff(path: seq<State>, next: State)
    requires path != []
    ensures LegalPath(path + [next]) <==> LegalPath(path) && Allowed(path[|path| - 1], next)
  {
    assert (path + [next])[..|path|] == path;
  }

  lemma StatesGrow(es: seq<Entry>, e: Entry, id: string)
    ensures States(es + [e], id) == if e.taskId == id then States(es, id) + [e.state] else States(es, id)
  {
    assert (es + [e])[..|es|] == es;
  }

  /** What an effect does to one task and to its entries in the log. */
  lemma EffectOnOne(cfg: Config, s: EngineState, s': EngineState, effect: Effect, id: string)
    requires Explains(cfg, s, s', effect)
    ensures var path, path' := States(s.log.history, id), States(s'.log.history, id);
            if effect.Move? && effect.t.id == id then
              path' == path + [effect.newState] && Held(s', id) == Some(effect.Moved())
            else if effect.Birth? && effect.t.id == id then
              path' == path + [Pending] && Held(s', id) == Some(effect.t)
            else
              && path' == path
              && Held(s', id) == if effect.Touch? && effect.t.id == id then Some(effect.t) else Held(s, id)
  {
    if effect.Move? || effect.Birth? {
      StatesGrow(s.log.history, effect.entry, id);
    }
  }

  lemma MoveFits(path: seq<State>, held: TaskView, t: TaskView, newState: State, updated: int, stamped: int)
    requires Fits(path, Some(held)) && held.state == t.state && held.attempts == t.attempts
    requires Allowed(t.state, newState)
    ensures Fits(path + [newState], Some(Transitioned(t, newState, updated, stamped).value))
  {
    PathGrowsIff(path, newState);
    DispatchesGrow(path, newState);
  }

  lemma EffectKeepsHistory(cfg: Config, s: EngineState, s': EngineState, effect: Effect, id: string)
    requires Explains(cfg, s, s', effect)
    requires effect.Birth? && effect.t.id == id ==> id !in s.tasks
    requires HistoryFits(s, id)
    ensures HistoryFits(s', id)
  {
    EffectOnOne(cfg, s, s', effect, id);
    if effect.Move? && effect.t.id == id {
      MoveFits(States(s.log.history, id), s.tasks[id], effect.t, effect.newState, effect.updated, effect.stamped);
    }
  }

  lemma {:induction false} HistoryAlwaysFits(cfg: Config, ops: seq<Op>, id: string)
    requires NotRemade(cfg, NEW_ENGINE, ops, id)
    ensures HistoryFits(Run(cfg, NEW_ENGINE, ops), id)
  {
    if ops != [] {
      var before, op := ops[..|ops| - 1], ops[|ops| - 1];
      var s := Run(cfg, NEW_ENGINE, before);
      HistoryAlwaysFits(cfg, before, id);
      RunKeepsInv(cfg, before);
      var effect := Explain(cfg, s, op);
      EffectKeepsHistory(cfg, s, Step(cfg, s, op), effect, id);
    }
  }

  /** The entries show that some task was overwritten: they are no legal path, or more dispatches than attempts. */
  ghost predicate Broken(s: EngineState, id: string) {
    var path := States(s.log.history, id);
    id in s.tasks && path != [] && (!LegalPath(path) || s.tasks[id].attempts < DispatchCount(path))
  }

  /** A task goes back to PENDING only after a dispatch. */
  lemma PendingAgain(path: seq<State>)
    requires path != [] && LegalPath(path + [Pending])
    ensures DispatchCount(path + [Pending]) > 0
  {
    PathGrowsIff(path, Pending);
    DispatchesGrow(path, Pending);
    assert path[|path| - 1] == Dispatched;
  }

  lemma RemakeBreaks(cfg: Config, s: EngineState, s': EngineState, effect: Effect, id: string)
    requires Explains(cfg, s, s', effect) && effect.Birth? && effect.t.id == id && id in s.tasks
    requires HistoryFits(s, id) || Broken(s, id)
    ensures Broken(s', id)
  {
    var path := States(s.log.history, id);
    EffectOnOne(cfg, s, s', effect, id);
    assert LegalPath(path) ==> path != [];
    if LegalPath(path + [Pending]) {
      PendingAgain(path);
    }
  }

  lemma EffectKeepsBroken(cfg: Config, s: EngineState, s': EngineState, effect: Effect, id: string)
    requires Explains(cfg, s, s', effect) && Broken(s, id)
    ensures Broken(s', id)
  {
    EffectOnOne(cfg, s, s', effect, id);
    if effect.Birth? && effect.t.id == id {
      RemakeBreaks(cfg, s, s', effect, id);
    } else if effect.Move? && effect.t.id == id {
      PathGrowsIff(States(s.log.history, id), effect.newState);
      DispatchesGrow(States(s.log.history, id), effect.newState);
      EssenceAfter(effect.t, effect.newState, effect.updated, effect.stamped);
    }
  }

  lemma {:induction false} BrokenForever(cfg: Config, ops: seq<Op>, id: string)
    requires !NotRemade(cfg, NEW_ENGINE, ops, id)
    ensures Broken(Run(cfg, NEW_ENGINE, ops), id)
  {
    var before, op := ops[..|ops| - 1], ops[|ops| - 1];
    var s := Run(cfg, NEW_ENGINE, before);
    RunKeepsInv(cfg, before);
    var effect := Explain(cfg, s, op);
    if NotRemade(cfg, NEW_ENGINE, before, id) {
      HistoryAlwaysFits(cfg, before, id);
      RemakeBreaks(cfg, s, Step(cfg, s, op), effect, id);
    } else {
      BrokenForever(cfg, before, id);
      EffectKeepsBroken(cfg, s, Step(cfg, s, op), effect, id);
    }
  }

  /**
   * In every run the entries of a task go round PENDING, SCHEDULED, DISPATCHED and end at most once, with an attempt
   * for every full round, exactly when no create overwrote this task. With n entries that are not final the task
   * can then only have completed or failed when 3 divides n, and only have been cancelled when it does not.
   */
  lemma {:induction false} ClosedFormOfEveryTask(cfg: Config, ops: seq<Op>, id: string)
    requires id in Run(cfg, NEW_ENGINE, ops).tasks
    ensures var s := Run(cfg, NEW_ENGINE, ops);
            var path, t := States(s.log.history, id), s.tasks[id];
            var n := Running(path);
            && (ClosedForm(path) && t.attempts == n / 3 <==> NotRemade(cfg, NEW_ENGINE, ops, id))
            && (NotRemade(cfg, NEW_ENGINE, ops, id) ==>
                  && (t.state in {Completed, Failed} <==> n < |path| && n % 3 == 0)
                  && (t.state == Cancelled <==> n < |path| && n % 3 != 0)
                  && (!IsTerminal(t.state) ==> n == |path| && t.state == Cycle(n - 1)))
  {
    var s := Run(cfg, NEW_ENGINE, ops);
    var path := States(s.log.history, id);
    LegalPathIffClosedForm(path);
    if ClosedForm(path) {
      DispatchesOfClosedForm(path);
    }
    if NotRemade(cfg, NEW_ENGINE, ops, id) {
      HistoryAlwaysFits(cfg, ops, id);
      assert Running(path) == |path| ==> path[|path| - 1] == Cycle(|path| - 1);
    } else {
      BrokenForever(cfg, ops, id);
    }
  }

  // ---------------------------------------------------------------- and every such life happens

  /** Storage that works, and a clock that stands still. */
  const CALM := Env(0, 0, 0, true)

  /** Create one task and drive it along `path`. */
  function Drive(path: seq<State>): seq<Op>
    requires path != []
  {
    if |path| == 1 then [Create("w", "n", "", CALM)]
    else Drive(path[..|path| - 1]) + [Transition(TaskId.Make("w", 0), path[|path| - 1], CALM)]
  }

  /** The log has taken task `id` along `path`, and the task is where the path ends. */
  ghost predicate Driven(s: EngineState, id: string, path: seq<State>)
    requires path != []
  {
    && id in s.tasks && s.tasks[id].state == path[|path| - 1]
    && States(s.log.history, id) == path
  }

  lemma DriveFirst(cfg: Config)
    requires cfg.count > 0
    ensures IdsFresh(cfg, NEW_ENGINE, Drive([Pending]))
    ensures Driven(Run(cfg, NEW_ENGINE, Drive([Pending])), TaskId.Make("w", 0), [Pending])
  {
    var ops, id := Drive([Pending]), TaskId.Make("w", 0);
    TaskId.MakeIsNotEmpty("w", 0);
    assert ops[..0] == [];
    var s := CreateReply(cfg, NEW_ENGINE, "w", "n", "", CALM).state;
    assert Run(cfg, NEW_ENGINE, ops) == s;
    assert s.log.history[..0] == [];
  }

  lemma DriveNext(cfg: Config, s: EngineState, id: string, path: seq<State>, next: State)
    requires Inv(cfg, s) && path != [] && Driven(s, id, path) && Allowed(path[|path| - 1], next)
    ensures Driven(Step(cfg, s, Transition(id, next, CALM)), id, path + [next])
  {
    assert TaskInv(cfg, id, s.tasks[id]);
    var effect := ExplainRecord(cfg, s, id, s.tasks[id], next, s.tasks[id].payload, CALM);
    EffectOnOne(cfg, s, Step(cfg, s, Transition(id, next, CALM)), effect, id);
    EssenceAfter(effect.t, next, effect.updated, effect.stamped);
  }

  lemma LastStep(path: seq<State>)
    requires LegalPath(path) && |path| > 1
    ensures var before := path[..|path| - 1];
            LegalPath(before) && before + [path[|path| - 1]] == path && Allowed(before[|before| - 1], path[|path| - 1])
  {
  }

  lemma {:induction false} DriveAlong(cfg: Config, path: seq<State>)
    requires cfg.count > 0 && LegalPath(path)
    ensures IdsFresh(cfg, NEW_ENGINE, Drive(path))
    ensures Driven(Run(cfg, NEW_ENGINE, Drive(path)), TaskId.Make("w", 0), path)
  {
    if |path| == 1 {
      assert path == [Pending];
      DriveFirst(cfg);
    } else {
      LastStep(path);
      var before, next, id := path[..|path| - 1], path[|path| - 1], TaskId.Make("w", 0);
      DriveAlong(cfg, before);
      RunKeepsInv(cfg, Drive(before));
      DriveNext(cfg, Run(cfg, NEW_ENGINE, Drive(before)), id, before, next);
      OneMore(cfg, Drive(before), Transition(id, next, CALM));
    }
  }

  ghost predicate Happens(cfg: Config, ops: seq<Op>, id: string, path: seq<State>)
    requires path != []
  {
    IdsFresh(cfg, NEW_ENGINE, ops) && Driven(Run(cfg, NEW_ENGINE, ops), id, path)
  }

  /** The histories of tasks, over all runs without a reused id, are exactly the paths the table allows. */
  lemma {:induction false} HappensIffLegal(cfg: Config, path: seq<State>)
    requires cfg.count > 0 && path != []
    ensures (exists ops, id :: Happens(cfg, ops, id, path)) <==> LegalPath(path)
  {
    if LegalPath(path) {
      DriveAlong(cfg, path);
      assert Happens(cfg, Drive(path), TaskId.Make("w", 0), path);
    } else if ops, id :| Happens(cfg, ops, id, path) {
      FreshRemakesNone(cfg, NEW_ENGINE, ops, id);
      HistoryAlwaysFits(cfg, ops, id);
    }
  }

  lemma OneMore(cfg: Config, ops: seq<Op>, op: Op)
    requires IdsFresh(cfg, NEW_ENGINE, ops) && !op.Create?
    ensures IdsFresh(cfg, NEW_ENGINE, ops + [op])
    ensures Run(cfg, NEW_ENGINE, ops + [op]) == Step(cfg, Run(cfg, NEW_ENGINE, ops), op)
  {
    assert (ops + [op])[..|ops|] == ops;
  }

  // ---------------------------------------------------------------- what later calls can and cannot change

  function EndOf(from: State, more: seq<State>): State {
    if more == [] then from else more[|more| - 1]
  }

  /** Each state is allowed after the one before it, the first one after `from`. */
  ghost predicate Continues(from: State, more: seq<State>) {
    more != [] ==>
      var before := more[..|more| - 1];
      Continues(from, before) && Allowed(EndOf(from, before), more[|more| - 1])
  }

  /**
   * How a task may look later, when the log has taken it along `more`: the same task at the end of that path, with an
   * attempt for each dispatch on it. Without a new entry nothing changes but what a refused CompleteTask or FailTask
   * stored in a dispatched task.
   */
  ghost predicate Evolved(t: TaskView, t': TaskView, more: seq<State>) {
    && t'.id == t.id && t'.workflowId == t.workflowId && t'.name == t.name && t'.payload == t.payload
    && t'.partitionId == t.partitionId && t'.maxAttempts == t.maxAttempts && t'.createdAt == t.createdAt
    && Continues(t.state, more) && t'.state == EndOf(t.state, more)
    && t'.attempts == t.attempts + DispatchCount(more)
    && (more == [] ==> t' == t.(result := t'.result, error := t'.error))
    && (more == [] && t.state != Dispatched ==> t' == t)
  }

  lemma EvolvesFurther(t: TaskView, mid: TaskView, more: seq<State>, stored: TaskView, newState: State,
                       updated: int, stamped: int)
    requires Evolved(t, mid, more) && stored == mid.(result := stored.result, error := stored.error)
    requires Allowed(mid.state, newState)
    ensures Evolved(t, Transitioned(stored, newState, updated, stamped).value, more + [newState])
  {
    assert (more + [newState])[..|more|] == more;
    DispatchesGrow(more, newState);
  }

  /** A final state has no continuation. */
  lemma {:induction false} FinalEnds(from: State, more: seq<State>)
    requires IsTerminal(from) && Continues(from, more)
    ensures more == []
  {
    if more != [] {
      FinalEnds(from, more[..|more| - 1]);
    }
  }

  lemma EvolvesAlong(t: TaskView, mid: TaskView, start: seq<State>, path: seq<State>, effect: Effect)
    requires effect.Move? && effect.t == mid.(result := effect.t.result, error := effect.t.error)
    requires Allowed(mid.state, effect.newState)
    requires start <= path && Evolved(t, mid, path[|start|..])
    ensures Evolved(t, effect.Moved(), (path + [effect.newState])[|start|..])
  {
    EvolvesFurther(t, mid, path[|start|..], effect.t, effect.newState, effect.updated, effect.stamped);
    assert (path + [effect.newState])[|start|..] == path[|start|..] + [effect.newState];
  }

  lemma EffectEvolves(cfg: Config, s: EngineState, s': EngineState, effect: Effect, id: string,
                      t: TaskView, start: seq<State>)
    requires Explains(cfg, s, s', effect) && id in s.tasks && !(effect.Birth? && effect.t.id == id)
    requires var path := States(s.log.history, id); start <= path && Evolved(t, s.tasks[id], path[|start|..])
    ensures var path' := States(s'.log.history, id);
            && id in s'.tasks
            && start <= path' && Evolved(t, s'.tasks[id], path'[|start|..])
  {
    var path := States(s.log.history, id);
    EffectOnOne(cfg, s, s', effect, id);
    if effect.Move? && effect.t.id == id {
      EvolvesAlong(t, s.tasks[id], start, path, effect);
    }
  }

  lemma StepEvolves(cfg: Config, s: EngineState, op: Op, id: string, t: TaskView, start: seq<State>)
    requires Inv(cfg, s) && id in s.tasks && !Remakes(cfg, s, op, id)
    requires var path := States(s.log.history, id); start <= path && Evolved(t, s.tasks[id], path[|start|..])
    ensures var s' := Step(cfg, s, op);
            var path' := States(s'.log.history, id);
            && Inv(cfg, s') && id in s'.tasks
            && start <= path' && Evolved(t, s'.tasks[id], path'[|start|..])
  {
    StepKeepsInv(cfg, s, op);
    var effect := Explain(cfg, s, op);
    EffectEvolves(cfg, s, Step(cfg, s, op), effect, id, t, start);
  }

  lemma EvolvedFinal(t: TaskView, t': TaskView, path: seq<State>, path': seq<State>)
    requires path <= path' && Evolved(t, t', path'[|path|..])
    ensures IsTerminal(t.state) ==> t' == t && path' == path
  {
    if IsTerminal(t.state) {
      FinalEnds(t.state, path'[|path|..]);
    }
  }

  /** From any engine that keeps the invariant, after any further run that does not overwrite it, a task has evolved. */
  lemma {:induction false} TasksOnlyEvolve(cfg: Config, s: EngineState, ops: seq<Op>, id: string)
    requires Inv(cfg, s) && NotRemade(cfg, s, ops, id) && id in s.tasks
    ensures var s' := Run(cfg, s, ops);
            var path, path' := States(s.log.history, id), States(s'.log.history, id);
            && Inv(cfg, s') && id in s'.tasks
            && path <= path' && Evolved(s.tasks[id], s'.tasks[id], path'[|path|..])
            && (IsTerminal(s.tasks[id].state) ==> s'.tasks[id] == s.tasks[id] && path' == path)
  {
    if ops != [] {
      var before, op := ops[..|ops| - 1], ops[|ops| - 1];
      TasksOnlyEvolve(cfg, s, before, id);
      StepEvolves(cfg, Run(cfg, s, before), op, id, s.tasks[id], States(s.log.history, id));
      EvolvedFinal(s.tasks[id], Run(cfg, s, ops).tasks[id], States(s.log.history, id),
                   States(Run(cfg, s, ops).log.history, id));
    }
  }

  /** The states logged for the task that `s` holds under `id`, until a create overwrites it. */
  ghost function LoggedSince(cfg: Config, s: EngineState, ops: seq<Op>, id: string): seq<State> {
    if NotRemade(cfg, s, ops, id) then
      var path, path' := States(s.log.history, id), States(Run(cfg, s, ops).log.history, id);
      if path <= path' then path'[|path|..] else []
    else
      LoggedSince(cfg, s, ops[..|ops| - 1], id)
  }

  /**
   * What GetTasksByState and GetTasksForPartition copy of a task they selected is that task, evolved, whatever calls
   * come between, even one that overwrites it.
   */
  lemma {:induction false} SelectedTaskEvolves(cfg: Config, s: EngineState, ops: seq<Op>, id: string)
    requires Inv(cfg, s) && id in s.tasks
    ensures Evolved(s.tasks[id], Follow(cfg, s, ops, id), LoggedSince(cfg, s, ops, id))
  {
    if NotRemade(cfg, s, ops, id) {
      TasksOnlyEvolve(cfg, s, ops, id);
      FollowWhileKept(cfg, s, ops, id);
    } else {
      SelectedTaskEvolves(cfg, s, ops[..|ops| - 1], id);
    }
  }

  lemma LastContinues(from: State, more: seq<State>)
    requires Continues(from, more) && more != []
    ensures var before := more[..|more| - 1];
            && Continues(from, before) && !IsTerminal(EndOf(from, before))
            && Allowed(EndOf(from, before), more[|more| - 1])
  {
    assert Targets(EndOf(from, more[..|more| - 1])) != [];
  }

  /**
   * What GetWorkflowTasks reads of a listed task is that task, evolved, unless a create has overwritten it before the
   * lookup; one that comes between the lookup and the copy does not matter.
   */
  lemma {:induction false} LateLookupFindsEvolvedTask(cfg: Config, s: EngineState, others: nat -> Round, i: nat,
                                                      id: string)
    requires Inv(cfg, s) && id in s.tasks && NotRemade(cfg, s, Rounds(others, i) + others(i).first, id)
    ensures Evolved(s.tasks[id], LookupAfter(cfg, s, others, i, id),
                    LoggedSince(cfg, s, Rounds(others, i + 1), id))
  {
    FollowOn(cfg, s, Rounds(others, i) + others(i).first, others(i).second, id);
    SelectedTaskEvolves(cfg, s, Rounds(others, i + 1), id);
  }

  /** From a running state the path goes on round the cycle. */
  lemma {:induction false} StaysInCycle(p: nat, more: seq<State>)
    requires Continues(Cycle(p), more) && !IsTerminal(EndOf(Cycle(p), more))
    ensures EndOf(Cycle(p), more) == Cycle(p + |more|)
  {
    if more != [] {
      var n, before := |more| - 1, more[..|more| - 1];
      LastContinues(Cycle(p), more);
      StaysInCycle(p, before);
      assert EndOf(Cycle(p), before) == Cycle(p + n);
      OnceAround(p + n, more[n]);
    }
  }

  lemma OnceAround(n: nat, to: State)
    requires Allowed(Cycle(n), to) && !IsTerminal(to)
    ensures to == Cycle(n + 1)
  {
    NextInCycle(n + 1, to);
  }

  lemma BackAgainIff(p: nat, n: nat)
    ensures Cycle(p + n) == Cycle(p) <==> n % 3 == 0
  {
  }

  predicate NoneFinal(path: seq<State>) {
    forall i :: 0 <= i < |path| ==> !IsTerminal(path[i])
  }

  /** Only the end of a continuation can be final. */
  lemma {:induction false} OnlyEndIsFinal(from: State, more: seq<State>)
    requires Continues(from, more) && !IsTerminal(from)
    ensures NoneFinal(more) <==> !IsTerminal(EndOf(from, more))
  {
    if more != [] {
      var before := more[..|more| - 1];
      LastContinues(from, more);
      OnlyEndIsFinal(from, before);
      assert forall i :: 0 <= i < |before| ==> more[i] == before[i];
    }
  }

  lemma SameStateIff(t: TaskView, t': TaskView, more: seq<State>)
    requires IsValidState(t.state) && Evolved(t, t', more)
    ensures t'.state == t.state <==> IsTerminal(t.state) || (|more| % 3 == 0 && NoneFinal(more))
  {
    if IsTerminal(t.state) {
      FinalEnds(t.state, more);
      return;
    }
    OnlyEndIsFinal(t.state, more);
    if !IsTerminal(EndOf(t.state, more)) {
      var p := if t.state == Pending then 0 else if t.state == Scheduled then 1 else 2;
      assert t.state == Cycle(p);
      StaysInCycle(p, more);
      BackAgainIff(p, |more|);
    }
  }

  /**
   * A copy that GetTasksByState makes late still has the state it was selected for exactly when that state was final,
   * or a multiple of three states was logged for the task since, none of them final.
   */
  lemma {:induction false} CopyStillInStateIff(cfg: Config, s: EngineState, ops: seq<Op>, id: string)
    requires Inv(cfg, s) && id in s.tasks
    ensures var t, copy := s.tasks[id], Follow(cfg, s, ops, id);
            var more := LoggedSince(cfg, s, ops, id);
            copy.state == t.state <==> IsTerminal(t.state) || (|more| % 3 == 0 && NoneFinal(more))
  {
    assert TaskInv(cfg, id, s.tasks[id]);
    SelectedTaskEvolves(cfg, s, ops, id);
    SameStateIff(s.tasks[id], Follow(cfg, s, ops, id), LoggedSince(cfg, s, ops, id));
  }

  // ---------------------------------------------------------------- the index

  /** The ids of the creation entries of one workflow, in log order: an id's first entry creates it. */
  function CreatedIn(es: seq<Entry>, w: string): seq<string> {
    if es == [] then [] else
      var before, e := es[..|es| - 1], es[|es| - 1];
      CreatedIn(before, w) + if e.workflowId == w && States(before, e.taskId) == [] then [e.taskId] else []
  }

  /** The fold knows the ids that have entries, and lists them so. */
  lemma {:induction false} FoldListsCreations(cfg: Config, es: seq<Entry>, w: string)
    ensures TasksOf(Recover(cfg, es).workflowTasks, w) == CreatedIn(es, w)
    ensures forall id :: id in Recover(cfg, es).tasks <==> States(es, id) != []
  {
    if es != [] {
      FoldListsCreations(cfg, es[..|es| - 1], w);
    }
  }

  /**
   * After every run: each workflow's list holds the ids of its tasks in the order in which the log created them,
   * exactly when no create reused an id.
   */
  lemma {:induction false} ListsAreInCreationOrderIff(cfg: Config, ops: seq<Op>)
    ensures var s := Run(cfg, NEW_ENGINE, ops);
            (forall w :: TasksOf(s.workflowTasks, w) == CreatedIn(s.log.history, w)) <==> IdsFresh(cfg, NEW_ENGINE, ops)
  {
    var s := Run(cfg, NEW_ENGINE, ops);
    var folded := Recover(cfg, s.log.history).workflowTasks;
    forall w ensures TasksOf(folded, w) == CreatedIn(s.log.history, w) {
      FoldListsCreations(cfg, s.log.history, w);
    }
    if IdsFresh(cfg, NEW_ENGINE, ops) {
      RecoveredWhenFresh(cfg, ops);
    } else {
      DoubleForever(cfg, ops);
      FoldListsOnce(cfg, s.log.history);
      var w, i: nat, w', j: nat :| ListedTwice(s.workflowTasks, w, i, w', j);
      assert !ListedTwice(folded, w, i, w', j);
      assert TasksOf(s.workflowTasks, w) != TasksOf(folded, w) || TasksOf(s.workflowTasks, w') != TasksOf(folded, w');
    }
  }

  /**
   * After every run without a reused id each task is in the list of its own workflow, in that one only, and at one
   * place; a reused id is listed twice.
   */
  lemma {:induction false} ListsPartitionTheTasks(cfg: Config, ops: seq<Op>)
    ensures var s := Run(cfg, NEW_ENGINE, ops);
            && (ListsOnce(s.workflowTasks) <==> IdsFresh(cfg, NEW_ENGINE, ops))
            && (IdsFresh(cfg, NEW_ENGINE, ops) ==>
                  forall id, w :: id in TasksOf(s.workflowTasks, w) <==> id in s.tasks && s.tasks[id].workflowId == w)
  {
    var s := Run(cfg, NEW_ENGINE, ops);
    RunKeepsInv(cfg, ops);
    if IdsFresh(cfg, NEW_ENGINE, ops) {
      RecoveredWhenFresh(cfg, ops);
      FoldListsOnce(cfg, s.log.history);
      forall id, w | id in TasksOf(s.workflowTasks, w)
        ensures id in s.tasks && s.tasks[id].workflowId == w
      {
        ListedUnderOwnWorkflow(cfg, s, id, w);
      }
    } else {
      DoubleForever(cfg, ops);
    }
  }

  lemma ListedUnderOwnWorkflow(cfg: Config, s: EngineState, id: string, w: string)
    requires Inv(cfg, s) && ListsOnce(s.workflowTasks) && id in TasksOf(s.workflowTasks, w)
    ensures id in s.tasks && s.tasks[id].workflowId == w
  {
    var i :| 0 <= i < |s.workflowTasks[w]| && s.workflowTasks[w][i] == id;
    var w' := s.tasks[id].workflowId;
    var j :| 0 <= j < |s.workflowTasks[w']| && s.workflowTasks[w'][j] == id;
    assert !ListedTwice(s.workflowTasks, w, i, w', j);
  }

  // ---------------------------------------------------------------- times

  /** The clock never runs backwards, within a call and from one call to the next. */
  ghost predicate ClockRuns(ops: seq<Op>) {
    && (forall i :: 0 <= i < |ops| && HasEnv(ops[i]) ==> ops[i].env.t0 <= ops[i].env.t1 <= ops[i].env.t2)
    && (forall i, j :: 0 <= i < j < |ops| && HasEnv(ops[i]) && HasEnv(ops[j]) ==> ops[i].env.t2 <= ops[j].env.t0)
  }

  ghost predicate ReadBefore(ops: seq<Op>, now: int) {
    forall i :: 0 <= i < |ops| && HasEnv(ops[i]) ==> ops[i].env.t2 <= now
  }

  lemma EffectKeepsTimes(cfg: Config, s: EngineState, s': EngineState, effect: Effect, id: string, start: int, now: int)
    requires Inv(cfg, s) && Explains(cfg, s, s', effect) && id in s'.tasks
    requires id in s.tasks ==> TimesInOrder(s.tasks[id], start)
    requires start <= now
    requires effect.Move? ==> start <= effect.updated <= effect.stamped <= now
    requires effect.Birth? ==> effect.t.createdAt <= now
    ensures TimesInOrder(s'.tasks[id], now)
  {
    if effect.Move? && effect.t.id == id {
      assert TaskInv(cfg, id, s.tasks[id]);
      TransitionKeepsOrder(effect.t, effect.newState, start, effect.updated, effect.stamped);
    }
  }

  /** In every run under such a clock a task was created before it was dispatched and dispatched before it completed. */
  lemma {:induction false} TimesAreInOrder(cfg: Config, ops: seq<Op>, id: string, now: int)
    requires ClockRuns(ops) && ReadBefore(ops, now)
    requires id in Run(cfg, NEW_ENGINE, ops).tasks
    ensures Coherent(Run(cfg, NEW_ENGINE, ops).tasks[id])
    ensures TimesInOrder(Run(cfg, NEW_ENGINE, ops).tasks[id], now)
  {
    var before, op := ops[..|ops| - 1], ops[|ops| - 1];
    var s := Run(cfg, NEW_ENGINE, before);
    var start := if HasEnv(op) then op.env.t0 else now;
    if id in s.tasks {
      TimesAreInOrder(cfg, before, id, start);
    }
    RunKeepsInv(cfg, before);
    RunKeepsInv(cfg, ops);
    assert TaskInv(cfg, id, Run(cfg, NEW_ENGINE, ops).tasks[id]);
    var effect := Explain(cfg, s, op);
    EffectKeepsTimes(cfg, s, Step(cfg, s, op), effect, id, start, now);
  }
}
