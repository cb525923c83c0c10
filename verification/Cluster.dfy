/** Engine and partition manager together: who owns a task, and how the tasks divide up. */
module Cluster {
  import opened Results
  import opened TaskState
  import opened Tasks
  import opened Partition
  import opened EngineSpec
  import opened Recovery
  import TaskId

  datatype ClusterState = ClusterState(engine: EngineState, manager: ManagerState)

  const NEW_CLUSTER := ClusterState(NEW_ENGINE, NO_NODES)

  datatype ClusterOp = EngineCall(op: Op) | Membership(change: MemberOp)

  ghost function ClusterStep(cfg: Config, c: ClusterState, op: ClusterOp): ClusterState {
    match op
    case EngineCall(op) => c.(engine := Step(cfg, c.engine, op))
    case Membership(change) => c.(manager := MemberStep(cfg, c.manager, change))
  }

  ghost function ClusterRun(cfg: Config, c: ClusterState, ops: seq<ClusterOp>): ClusterState {
    if ops == [] then c else ClusterStep(cfg, ClusterRun(cfg, c, ops[..|ops| - 1]), ops[|ops| - 1])
  }

  function EngineCalls(ops: seq<ClusterOp>): seq<Op> {
    if ops == [] then [] else
      EngineCalls(ops[..|ops| - 1]) + if ops[|ops| - 1].EngineCall? then [ops[|ops| - 1].op] else []
  }

  function Changes(ops: seq<ClusterOp>): seq<MemberOp> {
    if ops == [] then [] else
      Changes(ops[..|ops| - 1]) + if ops[|ops| - 1].Membership? then [ops[|ops| - 1].change] else []
  }

  /** However calls and membership changes are interleaved, each side goes its own way. */
  lemma {:induction false} SidesAreIndependent(cfg: Config, ops: seq<ClusterOp>)
    ensures ClusterRun(cfg, NEW_CLUSTER, ops)
         == ClusterState(Run(cfg, NEW_ENGINE, EngineCalls(ops)), MemberRun(cfg, NO_NODES, Changes(ops)))
  {
    if ops != [] {
      var before, op := ops[..|ops| - 1], ops[|ops| - 1];
      SidesAreIndependent(cfg, before);
      if op.EngineCall? {
        assert EngineCalls(ops)[..|EngineCalls(before)|] == EngineCalls(before);
        assert Changes(ops) == Changes(before);
      } else {
        assert Changes(ops)[..|Changes(before)|] == Changes(before);
        assert EngineCalls(ops) == EngineCalls(before);
      }
    }
  }

  /** With a node registered, every task ever created belongs to exactly one node, and that node is registered. */
  lemma ExactlyOneNodePerTask(cfg: Config, ops: seq<ClusterOp>, id: string)
    requires var c := ClusterRun(cfg, NEW_CLUSTER, ops); id in c.engine.tasks && c.manager.nodes != {}
    ensures var c := ClusterRun(cfg, NEW_CLUSTER, ops);
            var p := c.engine.tasks[id].partitionId;
            exists owner :: owner in c.manager.nodes && OwnerOf(cfg, c.manager, p) == Success(owner)
                            && forall node :: p in Owned(c.manager, node) <==> node == owner
  {
    var c := ClusterRun(cfg, NEW_CLUSTER, ops);
    SidesAreIndependent(cfg, ops);
    RunKeepsInv(cfg, EngineCalls(ops));
    assert TaskInv(cfg, id, c.engine.tasks[id]);
    ExactlyOneOwner(cfg, Changes(ops), c.engine.tasks[id].partitionId);
  }

  lemma {:induction false} ClusterKeepsTasks(cfg: Config, c: ClusterState, ops: seq<ClusterOp>)
    requires Inv(cfg, c.engine)
    ensures var c' := ClusterRun(cfg, c, ops); Inv(cfg, c'.engine) && c.engine.tasks.Keys <= c'.engine.tasks.Keys
  {
    if ops != [] {
      ClusterKeepsTasks(cfg, c, ops[..|ops| - 1]);
      var before, op := ClusterRun(cfg, c, ops[..|ops| - 1]), ops[|ops| - 1];
      if op.EngineCall? {
        StepKeepsInv(cfg, before.engine, op.op);
        RunKeepsTasks(cfg, before.engine, [op.op]);
        assert [op.op][..0] == [];
      }
    }
  }

  /** No call and no membership change moves a task to another partition. */
  lemma PartitionNeverChanges(cfg: Config, a: seq<ClusterOp>, b: seq<ClusterOp>, id: string)
    requires id in ClusterRun(cfg, NEW_CLUSTER, a).engine.tasks
    ensures var c := ClusterRun(cfg, NEW_CLUSTER, a); var c' := ClusterRun(cfg, c, b);
            id in c'.engine.tasks && c'.engine.tasks[id].partitionId == c.engine.tasks[id].partitionId
  {
    var c := ClusterRun(cfg, NEW_CLUSTER, a);
    SidesAreIndependent(cfg, a);
    RunKeepsInv(cfg, EngineCalls(a));
    ClusterKeepsTasks(cfg, c, b);
    var c' := ClusterRun(cfg, c, b);
    assert TaskInv(cfg, id, c.engine.tasks[id]) && TaskInv(cfg, id, c'.engine.tasks[id]);
  }

  // ---------------------------------------------------------------- how the tasks divide up

  function InState(s: EngineState, state: State): set<string> {
    set id | id in s.tasks && s.tasks[id].state == state
  }

  function InPartition(s: EngineState, k: int): set<string> {
    set id | id in s.tasks && s.tasks[id].partitionId == k
  }

  function StatesTotal(s: EngineState, states: seq<State>): nat {
    if states == [] then 0
    else StatesTotal(s, states[..|states| - 1]) + |InState(s, states[|states| - 1])|
  }

  function PartitionsTotal(s: EngineState, n: nat): nat {
    if n == 0 then 0 else PartitionsTotal(s, n - 1) + |InPartition(s, n - 1)|
  }

  ghost function InStates(s: EngineState, states: seq<State>): set<string> {
    set id | id in s.tasks && s.tasks[id].state in states
  }

  lemma {:induction false} StatesTotalCounts(s: EngineState, states: seq<State>)
    requires forall i, j :: 0 <= i < j < |states| ==> states[i] != states[j]
    ensures StatesTotal(s, states) == |InStates(s, states)|
  {
    if states == [] {
      assert InStates(s, states) == {};
    } else {
      var rest, last := states[..|states| - 1], states[|states| - 1];
      StatesTotalCounts(s, rest);
      assert states == rest + [last];
      assert InStates(s, states) == InStates(s, rest) + InState(s, last);
      assert InStates(s, rest) !! InState(s, last);
    }
  }

  ghost function InPartitionsBelow(s: EngineState, n: int): set<string> {
    set id | id in s.tasks && 0 <= s.tasks[id].partitionId < n
  }

  lemma {:induction false} PartitionsTotalCounts(s: EngineState, n: nat)
    ensures PartitionsTotal(s, n) == |InPartitionsBelow(s, n)|
  {
    if n == 0 {
      assert InPartitionsBelow(s, 0) == {};
    } else {
      PartitionsTotalCounts(s, n - 1);
      assert InPartitionsBelow(s, n) == InPartitionsBelow(s, n - 1) + InPartition(s, n - 1);
      assert InPartitionsBelow(s, n - 1) !! InPartition(s, n - 1);
    }
  }

  /** The number of creates of the run that succeeded. */
  ghost function Creations(cfg: Config, ops: seq<Op>): nat {
    if ops == [] then 0 else
      var before := ops[..|ops| - 1];
      Creations(cfg, before) + if Creates(cfg, Run(cfg, NEW_ENGINE, before), ops[|ops| - 1]) then 1 else 0
  }

  lemma EffectCounts(cfg: Config, s: EngineState, s': EngineState, effect: Effect)
    requires Explains(cfg, s, s', effect)
    ensures |s'.tasks| == |s.tasks| + if effect.Birth? && effect.t.id !in s.tasks then 1 else 0
  {
    var added := if effect.Birth? then {effect.t.id} else {};
    assert s'.tasks.Keys == s.tasks.Keys + added;
    assert |s'.tasks| == |s'.tasks.Keys| && |s.tasks| == |s.tasks.Keys|;
  }

  /** Every successful create adds a task, unless it reuses an id. */
  lemma {:induction false} OneTaskPerCreation(cfg: Config, ops: seq<Op>)
    ensures |Run(cfg, NEW_ENGINE, ops).tasks| <= Creations(cfg, ops)
    ensures |Run(cfg, NEW_ENGINE, ops).tasks| == Creations(cfg, ops) <==> IdsFresh(cfg, NEW_ENGINE, ops)
  {
    if ops != [] {
      var before, op := ops[..|ops| - 1], ops[|ops| - 1];
      var s := Run(cfg, NEW_ENGINE, before);
      OneTaskPerCreation(cfg, before);
      RunKeepsInv(cfg, before);
      var effect := Explain(cfg, s, op);
      EffectCounts(cfg, s, Step(cfg, s, op), effect);
    }
  }

  /** How many ids the answers hold in all. */
  function Lengths(answers: seq<seq<string>>): nat {
    if answers == [] then 0 else Lengths(answers[..|answers| - 1]) + |answers[|answers| - 1]|
  }

  /** `answers` are the ids that GetTasksByState selects for each of the states, in whatever order. */
  ghost predicate AnswerStates(s: EngineState, states: seq<State>, answers: seq<seq<string>>) {
    |answers| == |states| && forall i :: 0 <= i < |states| ==> Enumerates(answers[i], InState(s, states[i]))
  }

  lemma {:induction false} LengthsOfStates(s: EngineState, states: seq<State>, answers: seq<seq<string>>)
    requires AnswerStates(s, states, answers)
    ensures Lengths(answers) == StatesTotal(s, states)
  {
    if states != [] {
      var last := |states| - 1;
      LengthsOfStates(s, states[..last], answers[..last]);
      EnumerationLength(answers[last], InState(s, states[last]));
    }
  }

  /** `answers` are the ids that GetTasksForPartition selects for each of the first n partitions. */
  ghost predicate AnswerPartitions(s: EngineState, n: nat, answers: seq<seq<string>>) {
    |answers| == n && forall k :: 0 <= k < n ==> Enumerates(answers[k], InPartition(s, k))
  }

  lemma {:induction false} LengthsOfPartitions(s: EngineState, n: nat, answers: seq<seq<string>>)
    requires AnswerPartitions(s, n, answers)
    ensures Lengths(answers) == PartitionsTotal(s, n)
  {
    if n > 0 {
      LengthsOfPartitions(s, n - 1, answers[..n - 1]);
      EnumerationLength(answers[n - 1], InPartition(s, n - 1));
    }
  }

  lemma EveryTaskIsInAState(cfg: Config, s: EngineState)
    requires Inv(cfg, s)
    ensures InStates(s, AllStates()) == s.tasks.Keys
  {
    forall id | id in s.tasks
      ensures s.tasks[id].state in AllStates()
    {
      assert TaskInv(cfg, id, s.tasks[id]);
    }
  }

  lemma StatesDivide(cfg: Config, s: EngineState, answers: seq<seq<string>>)
    requires Inv(cfg, s) && AnswerStates(s, AllStates(), answers)
    ensures Lengths(answers) == |s.tasks|
  {
    LengthsOfStates(s, AllStates(), answers);
    StatesTotalCounts(s, AllStates());
    EveryTaskIsInAState(cfg, s);
  }

  /** After every run, what GetTasksByState selects for the six states is together as long as there are tasks. */
  lemma {:induction false} StatesDivideTheTasks(cfg: Config, ops: seq<Op>, answers: seq<seq<string>>)
    requires AnswerStates(Run(cfg, NEW_ENGINE, ops), AllStates(), answers)
    ensures Lengths(answers) == |Run(cfg, NEW_ENGINE, ops).tasks|
  {
    RunKeepsInv(cfg, ops);
    StatesDivide(cfg, Run(cfg, NEW_ENGINE, ops), answers);
  }

  /** And so is what GetTasksForPartition selects for all partitions. */
  lemma {:induction false} PartitionsDivideTheTasks(cfg: Config, ops: seq<Op>, answers: seq<seq<string>>)
    requires AnswerPartitions(Run(cfg, NEW_ENGINE, ops), cfg.count, answers)
    ensures Lengths(answers) == |Run(cfg, NEW_ENGINE, ops).tasks|
  {
    var s := Run(cfg, NEW_ENGINE, ops);
    LengthsOfPartitions(s, cfg.count, answers);
    RunKeepsInv(cfg, ops);
    PartitionsTotalCounts(s, cfg.count);
    forall id | id in s.tasks
      ensures 0 <= s.tasks[id].partitionId < cfg.count
    {
      assert TaskInv(cfg, id, s.tasks[id]);
    }
    assert InPartitionsBelow(s, cfg.count) == s.tasks.Keys;
  }
}
