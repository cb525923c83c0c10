/** Rebuilding the engine from its log: what each entry means, and when the log is enough. */
module Recovery {
  import opened Results
  import opened TaskState
  import opened Tasks
  import opened Wal
  import opened Partition
  import opened EngineSpec
  import opened Interleaving
  import TaskId

  /** What the log determines of a task. */
  datatype Recovered = Recovered(workflowId: string, state: State, payload: Bytes, partitionId: int, attempts: nat)

  datatype Snapshot = Snapshot(tasks: map<string, Recovered>, workflowTasks: map<string, seq<string>>)

  const NOTHING := Snapshot(map[], map[])

  function First(cfg: Config, e: Entry): Recovered {
    var partition := PartitionOf(cfg, e.taskId);
    Advance(Recovered(e.workflowId, e.state, e.data, if partition.Success? then partition.value else 0, 0), e.state)
  }

  function Advance(r: Recovered, state: State): Recovered {
    r.(state := state, attempts := r.attempts + if state == Dispatched then 1 else 0)
  }

  /** The first entry of a task creates it; every later one gives the state after a transition. */
  function Apply(cfg: Config, snap: Snapshot, e: Entry): Snapshot {
    if e.taskId in snap.tasks then
      snap.(tasks := snap.tasks[e.taskId := Advance(snap.tasks[e.taskId], e.state)])
    else
      Snapshot(snap.tasks[e.taskId := First(cfg, e)], Enlist(snap.workflowTasks, e.workflowId, e.taskId))
  }

  function Fold(cfg: Config, snap: Snapshot, es: seq<Entry>): Snapshot {
    if es == [] then snap else Apply(cfg, Fold(cfg, snap, es[..|es| - 1]), es[|es| - 1])
  }

  function Recover(cfg: Config, es: seq<Entry>): Snapshot {
    Fold(cfg, NOTHING, es)
  }

  /** The part of the engine's memory that recovery is about. */
  function Essence(t: TaskView): Recovered {
    Recovered(t.workflowId, t.state, t.payload, t.partitionId, t.attempts)
  }

  function Essences(tasks: map<string, TaskView>): map<string, Recovered> {
    map id | id in tasks :: Essence(tasks[id])
  }

  function SnapshotOf(s: EngineState): Snapshot {
    Snapshot(Essences(s.tasks), s.workflowTasks)
  }

  // ---------------------------------------------------------------- runs without a reused id

  /** No successful create of the run reused the id of a task that already exists. */
  ghost predicate IdsFresh(cfg: Config, s: EngineState, ops: seq<Op>) {
    ops != [] ==>
      var before, last := ops[..|ops| - 1], ops[|ops| - 1];
      && IdsFresh(cfg, s, before)
      && (Creates(cfg, Run(cfg, s, before), last) ==> NewId(last) !in Run(cfg, s, before).tasks)
  }

  lemma {:induction false} FreshRemakesNone(cfg: Config, s: EngineState, ops: seq<Op>, id: string)
    requires IdsFresh(cfg, s, ops)
    ensures NotRemade(cfg, s, ops, id)
  {
    if ops != [] {
      FreshRemakesNone(cfg, s, ops[..|ops| - 1], id);
    }
  }

  lemma {:induction false} ReuseRemakesOne(cfg: Config, s: EngineState, ops: seq<Op>) returns (id: string)
    requires !IdsFresh(cfg, s, ops)
    ensures !NotRemade(cfg, s, ops, id)
  {
    var before := ops[..|ops| - 1];
    if IdsFresh(cfg, s, before) {
      id := NewId(ops[|ops| - 1]);
    } else {
      id := ReuseRemakesOne(cfg, s, before);
    }
  }

  /** A run reuses no id exactly when it overwrites no task. */
  lemma FreshIffNoneRemade(cfg: Config, s: EngineState, ops: seq<Op>)
    ensures IdsFresh(cfg, s, ops) <==> forall id :: NotRemade(cfg, s, ops, id)
  {
    if IdsFresh(cfg, s, ops) {
      forall id ensures NotRemade(cfg, s, ops, id) {
        FreshRemakesNone(cfg, s, ops, id);
      }
    } else {
      var id := ReuseRemakesOne(cfg, s, ops);
    }
  }

  lemma FoldSnoc(cfg: Config, snap: Snapshot, es: seq<Entry>, e: Entry)
    ensures Fold(cfg, snap, es + [e]) == Apply(cfg, Fold(cfg, snap, es), e)
  {
    assert (es + [e])[..|es|] == es;
  }

  lemma {:induction false} FoldConcat(cfg: Config, snap: Snapshot, a: seq<Entry>, b: seq<Entry>)
    ensures Fold(cfg, snap, a + b) == Fold(cfg, Fold(cfg, snap, a), b)
  {
    if b == [] {
      assert a + b == a;
    } else {
      FoldConcat(cfg, snap, a, b[..|b| - 1]);
      assert a + b == (a + b[..|b| - 1]) + [b[|b| - 1]];
      FoldSnoc(cfg, snap, a + b[..|b| - 1], b[|b| - 1]);
    }
  }

  lemma EssencesUpdate(tasks: map<string, TaskView>, id: string, t: TaskView)
    ensures Essences(tasks[id := t]) == Essences(tasks)[id := Essence(t)]
  {
  }

  lemma EssenceAfter(t: TaskView, newState: State, updated: int, stamped: int)
    requires Allowed(t.state, newState)
    ensures Essence(Transitioned(t, newState, updated, stamped).value) == Advance(Essence(t), newState)
  {
  }

  lemma MoveFollowed(cfg: Config, s: EngineState, s': EngineState, effect: Effect)
    requires Explains(cfg, s, s', effect) && effect.Move?
    ensures SnapshotOf(s') == Apply(cfg, SnapshotOf(s), effect.entry)
  {
    var t := effect.t;
    EssencesUpdate(s.tasks, t.id, effect.Moved());
    EssenceAfter(t, effect.newState, effect.updated, effect.stamped);
    assert Essence(t) == Essences(s.tasks)[t.id];
  }

  /** One step with a fresh id: applying what was logged gives the new memory. */
  lemma EffectFollowed(cfg: Config, s: EngineState, s': EngineState, effect: Effect)
    requires Inv(cfg, s) && Explains(cfg, s, s', effect)
    requires effect.Birth? ==> effect.t.id !in s.tasks
    ensures effect.Quiet? || effect.Touch? ==>
              SnapshotOf(s') == SnapshotOf(s) && s'.log.history == s.log.history
    ensures effect.Move? || effect.Birth? ==>
              SnapshotOf(s') == Apply(cfg, SnapshotOf(s), effect.entry)
  {
    match effect
    case Quiet =>
    case Touch(t) =>
      EssencesUpdate(s.tasks, t.id, t);
      assert SnapshotOf(s').tasks == SnapshotOf(s).tasks;
    case Move(_, _, _, _, _) =>
      MoveFollowed(cfg, s, s', effect);
    case Birth(t, entry) =>
      EssencesUpdate(s.tasks, t.id, t);
  }

  lemma {:induction false} RecoveredWhenFresh(cfg: Config, ops: seq<Op>)
    requires IdsFresh(cfg, NEW_ENGINE, ops)
    ensures var s := Run(cfg, NEW_ENGINE, ops); Recover(cfg, s.log.history) == SnapshotOf(s)
  {
    if ops == [] {
      assert SnapshotOf(NEW_ENGINE).tasks == map[];
    } else {
      var before, op := ops[..|ops| - 1], ops[|ops| - 1];
      var s := Run(cfg, NEW_ENGINE, before);
      RecoveredWhenFresh(cfg, before);
      RunKeepsInv(cfg, before);
      var effect := Explain(cfg, s, op);
      EffectFollowed(cfg, s, Step(cfg, s, op), effect);
      if effect.Move? || effect.Birth? {
        FoldSnoc(cfg, NOTHING, s.log.history, effect.entry);
      }
    }
  }

  // ---------------------------------------------------------------- runs with a reused id

  /** Some id is listed at two places. */
  ghost predicate ListedTwice(index: map<string, seq<string>>, w: string, i: nat, w': string, j: nat) {
    && w in index && i < |index[w]| && w' in index && j < |index[w']|
    && (w, i) != (w', j) && index[w][i] == index[w'][j]
  }

  ghost predicate ListsOnce(index: map<string, seq<string>>) {
    forall w, i: nat, w', j: nat :: !ListedTwice(index, w, i, w', j)
  }

  /** The fold lists every id once, and only ids it knows. */
  lemma {:induction false} FoldListsOnce(cfg: Config, es: seq<Entry>)
    ensures var snap := Recover(cfg, es);
            && ListsOnce(snap.workflowTasks)
            && forall w, i :: w in snap.workflowTasks && 0 <= i < |snap.workflowTasks[w]| ==>
                 snap.workflowTasks[w][i] in snap.tasks
  {
    if es != [] {
      FoldListsOnce(cfg, es[..|es| - 1]);
      var known, e := Recover(cfg, es[..|es| - 1]), es[|es| - 1];
      var grown := Recover(cfg, es);
      assert grown == Apply(cfg, known, e);
      if e.taskId !in known.tasks {
        forall w, i: nat, w', j: nat
          ensures !ListedTwice(grown.workflowTasks, w, i, w', j)
        {
          assert !ListedTwice(known.workflowTasks, w, i, w', j);
        }
      }
    }
  }

  /** Nothing ever takes an entry off the index. */
  lemma EffectKeepsDouble(cfg: Config, s: EngineState, s': EngineState, effect: Effect,
                          w: string, i: nat, w': string, j: nat)
    requires Explains(cfg, s, s', effect) && ListedTwice(s.workflowTasks, w, i, w', j)
    ensures ListedTwice(s'.workflowTasks, w, i, w', j)
  {
  }

  /** A create with a taken id lists it a second time. */
  lemma ReusedIdIsDouble(cfg: Config, s: EngineState, s': EngineState, effect: Effect)
    requires Inv(cfg, s) && Explains(cfg, s, s', effect)
    requires effect.Birth? && effect.t.id in s.tasks
    ensures !ListsOnce(s'.workflowTasks)
  {
    var t := effect.t;
    var w := s.tasks[t.id].workflowId;
    var i :| 0 <= i < |TasksOf(s.workflowTasks, w)| && TasksOf(s.workflowTasks, w)[i] == t.id;
    assert ListedTwice(s'.workflowTasks, w, i, t.workflowId, |TasksOf(s.workflowTasks, t.workflowId)|);
  }

  lemma {:induction false} DoubleForever(cfg: Config, ops: seq<Op>)
    requires !IdsFresh(cfg, NEW_ENGINE, ops)
    ensures !ListsOnce(Run(cfg, NEW_ENGINE, ops).workflowTasks)
  {
    var before, op := ops[..|ops| - 1], ops[|ops| - 1];
    var s := Run(cfg, NEW_ENGINE, before);
    RunKeepsInv(cfg, before);
    var effect := Explain(cfg, s, op);
    if !IdsFresh(cfg, NEW_ENGINE, before) {
      DoubleForever(cfg, before);
      var w, i: nat, w', j: nat :| ListedTwice(s.workflowTasks, w, i, w', j);
      EffectKeepsDouble(cfg, s, Step(cfg, s, op), effect, w, i, w', j);
    } else {
      ReusedIdIsDouble(cfg, s, Step(cfg, s, op), effect);
    }
  }

  /**
   * The log is enough to rebuild the engine, after any run and with appends failing anywhere, exactly when no
   * create reused an id. The engine does not check that: it overwrites the task and lists the id again.
   */
  lemma RecoveryExactIff(cfg: Config, ops: seq<Op>)
    ensures var s := Run(cfg, NEW_ENGINE, ops);
            Recover(cfg, s.log.history) == SnapshotOf(s) <==> IdsFresh(cfg, NEW_ENGINE, ops)
  {
    if IdsFresh(cfg, NEW_ENGINE, ops) {
      RecoveredWhenFresh(cfg, ops);
    } else {
      DoubleForever(cfg, ops);
      FoldListsOnce(cfg, Run(cfg, NEW_ENGINE, ops).log.history);
    }
  }

  // ---------------------------------------------------------------- the clock

  /** The clock is past 1970 and moves between any two creates. */
  ghost predicate ClockAdvances(ops: seq<Op>) {
    && (forall i :: 0 <= i < |ops| && ops[i].Create? ==> ops[i].env.t0 >= 0)
    && (forall i, j :: 0 <= i < j < |ops| && ops[i].Create? && ops[j].Create? ==> ops[i].env.t0 < ops[j].env.t0)
  }

  /** Every task comes from one of the creates. */
  lemma {:induction false} CreatedBy(cfg: Config, ops: seq<Op>, id: string) returns (i: nat)
    requires id in Run(cfg, NEW_ENGINE, ops).tasks
    ensures i < |ops| && ops[i].Create? && NewId(ops[i]) == id
  {
    var before, last := ops[..|ops| - 1], |ops| - 1;
    var s := Run(cfg, NEW_ENGINE, before);
    if id in s.tasks {
      i := CreatedBy(cfg, before, id);
    } else {
      RunKeepsInv(cfg, before);
      var effect := Explain(cfg, s, ops[last]);
      i := last;
    }
  }

  /** With such a clock no id is ever reused, so the log is always enough. */
  lemma {:induction false} AdvancingClockKeepsIdsFresh(cfg: Config, ops: seq<Op>)
    requires ClockAdvances(ops)
    ensures IdsFresh(cfg, NEW_ENGINE, ops)
  {
    if ops != [] {
      var before, op := ops[..|ops| - 1], ops[|ops| - 1];
      AdvancingClockKeepsIdsFresh(cfg, before);
      if op.Create? && NewId(op) in Run(cfg, NEW_ENGINE, before).tasks {
        var i := CreatedBy(cfg, before, NewId(op));
        TaskId.SameIdIff(op.workflowId, op.env.t0, ops[i].workflowId, ops[i].env.t0);
      }
    }
  }
}
