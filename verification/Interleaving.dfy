/** One task while other clients make their calls. */
module Interleaving {
  import opened Results
  import opened Tasks
  import opened Partition
  import opened EngineSpec

  // ---------------------------------------------------------------- one task over a run

  /** The call creates a task under the id of one that exists. */
  ghost predicate Remakes(cfg: Config, s: EngineState, op: Op, id: string) {
    Creates(cfg, s, op) && NewId(op) == id && id in s.tasks
  }

  /** No call of the run creates `id` while it is taken. */
  ghost predicate NotRemade(cfg: Config, s: EngineState, ops: seq<Op>, id: string) {
    ops != [] ==>
      var before, last := ops[..|ops| - 1], ops[|ops| - 1];
      NotRemade(cfg, s, before, id) && !Remakes(cfg, Run(cfg, s, before), last, id)
  }

  /**
   * What the run makes of the very task that `s` holds under `id`. A call that overwrites the task puts another one
   * in its place, and nothing reaches the old one any more.
   */
  ghost function Follow(cfg: Config, s: EngineState, ops: seq<Op>, id: string): TaskView
    requires id in s.tasks
  {
    if NotRemade(cfg, s, ops, id) then
      RunKeepsTasks(cfg, s, ops);
      Run(cfg, s, ops).tasks[id]
    else
      Follow(cfg, s, ops[..|ops| - 1], id)
  }

  lemma FollowWhileKept(cfg: Config, s: EngineState, ops: seq<Op>, id: string)
    requires id in s.tasks && NotRemade(cfg, s, ops, id)
    ensures id in Run(cfg, s, ops).tasks && Follow(cfg, s, ops, id) == Run(cfg, s, ops).tasks[id]
  {
    RunKeepsTasks(cfg, s, ops);
  }

  lemma FollowOneCall(cfg: Config, s: EngineState, op: Op, id: string)
    requires id in s.tasks
    ensures Run(cfg, s, [op]) == Step(cfg, s, op) && s.tasks.Keys <= Step(cfg, s, op).tasks.Keys
    ensures NotRemade(cfg, s, [op], id) <==> !Remakes(cfg, s, op, id)
    ensures Follow(cfg, s, [op], id) == if Remakes(cfg, s, op, id) then s.tasks[id] else Step(cfg, s, op).tasks[id]
  {
    assert [op][..0] == [];
    assert Run(cfg, s, []) == s && NotRemade(cfg, s, [], id);
    RunKeepsTasks(cfg, s, [op]);
    if !Remakes(cfg, s, op, id) {
      FollowWhileKept(cfg, s, [op], id);
    }
  }

  lemma {:induction false} NotRemadeConcat(cfg: Config, s: EngineState, a: seq<Op>, b: seq<Op>, id: string)
    ensures NotRemade(cfg, s, a + b, id) <==> NotRemade(cfg, s, a, id) && NotRemade(cfg, Run(cfg, s, a), b, id)
  {
    if b == [] {
      assert a + b == a;
    } else {
      var before := b[..|b| - 1];
      NotRemadeConcat(cfg, s, a, before, id);
      assert (a + b)[..|a + b| - 1] == a + before;
      RunConcat(cfg, s, a, before);
    }
  }

  lemma {:induction false} FollowOn(cfg: Config, s: EngineState, a: seq<Op>, b: seq<Op>, id: string)
    requires id in s.tasks && NotRemade(cfg, s, a, id)
    ensures id in Run(cfg, s, a).tasks
    ensures Follow(cfg, s, a + b, id) == Follow(cfg, Run(cfg, s, a), b, id)
  {
    RunKeepsTasks(cfg, s, a);
    var mid := Run(cfg, s, a);
    NotRemadeConcat(cfg, s, a, b, id);
    if NotRemade(cfg, mid, b, id) {
      RunConcat(cfg, s, a, b);
      FollowWhileKept(cfg, s, a + b, id);
      FollowWhileKept(cfg, mid, b, id);
    } else {
      var before := b[..|b| - 1];
      FollowOn(cfg, s, a, before, id);
      assert (a + b)[..|a + b| - 1] == a + before;
    }
  }

  lemma {:induction false} FollowNoFurther(cfg: Config, s: EngineState, a: seq<Op>, b: seq<Op>, id: string)
    requires id in s.tasks && !NotRemade(cfg, s, a, id)
    ensures Follow(cfg, s, a + b, id) == Follow(cfg, s, a, id)
  {
    if b == [] {
      assert a + b == a;
    } else {
      var before := b[..|b| - 1];
      NotRemadeConcat(cfg, s, a, b, id);
      FollowNoFurther(cfg, s, a, before, id);
      assert (a + b)[..|a + b| - 1] == a + before;
    }
  }

  // ---------------------------------------------------------------- the object of a task

  /**
   * What calls made of a task object that was `was` and is `now`, held by the engine before (`held`) and after
   * (`stillHeld`): a held object goes along with its task until a create overwrites it, and an object that was
   * overwritten stays as it is.
   */
  ghost predicate Followed(cfg: Config, s: EngineState, ops: seq<Op>,
                           held: bool, was: TaskView, stillHeld: bool, now: TaskView) {
    && now.id == was.id
    && if held then
         && was.id in s.tasks
         && now == Follow(cfg, s, ops, was.id)
         && (stillHeld <==> NotRemade(cfg, s, ops, was.id))
       else
         !stillHeld && now == was
  }

  lemma FollowedNowhere(cfg: Config, s: EngineState, held: bool, was: TaskView)
    requires held ==> was.id in s.tasks && s.tasks[was.id] == was
    ensures Followed(cfg, s, [], held, was, held, was)
  {
    if held {
      FollowWhileKept(cfg, s, [], was.id);
    }
  }

  lemma FollowedOneCall(cfg: Config, s: EngineState, op: Op, held: bool, was: TaskView, stillHeld: bool, now: TaskView)
    requires now.id == was.id && (held ==> was.id in s.tasks && s.tasks[was.id] == was)
    requires stillHeld <==> held && !Remakes(cfg, s, op, was.id)
    requires if stillHeld then now.id in Step(cfg, s, op).tasks && now == Step(cfg, s, op).tasks[now.id] else now == was
    ensures Followed(cfg, s, [op], held, was, stillHeld, now)
  {
    if held {
      FollowOneCall(cfg, s, op, was.id);
    }
  }

  lemma FollowedBoth(cfg: Config, s: EngineState, a: seq<Op>, b: seq<Op>,
                     held: bool, was: TaskView, midHeld: bool, mid: TaskView, stillHeld: bool, now: TaskView)
    requires Followed(cfg, s, a, held, was, midHeld, mid)
    requires Followed(cfg, Run(cfg, s, a), b, midHeld, mid, stillHeld, now)
    ensures Followed(cfg, s, a + b, held, was, stillHeld, now)
  {
    if midHeld {
      FollowOn(cfg, s, a, b, was.id);
      NotRemadeConcat(cfg, s, a, b, was.id);
    } else if held {
      FollowNoFurther(cfg, s, a, b, was.id);
      NotRemadeConcat(cfg, s, a, b, was.id);
    }
  }

  // ---------------------------------------------------------------- turns of other clients

  /** The calls of the first n turns of the other clients. */
  function Turns(others: nat -> seq<Op>, n: nat): seq<Op> {
    if n == 0 then [] else Turns(others, n - 1) + others(n - 1)
  }

  /** What the other clients call while a reader looks a task up and copies it: before the lookup, and after it. */
  datatype Round = Round(first: seq<Op>, second: seq<Op>)

  /** The calls of the first n rounds. */
  function Rounds(others: nat -> Round, n: nat): seq<Op> {
    if n == 0 then [] else Rounds(others, n - 1) + others(n - 1).first + others(n - 1).second
  }

  /** What a reader gets of the i-th task it looks up: the task of the moment of the lookup, as the copy finds it. */
  ghost function LookupAfter(cfg: Config, s: EngineState, others: nat -> Round, i: nat, id: string): TaskView
    requires id in s.tasks
  {
    var calls := Rounds(others, i) + others(i).first;
    RunKeepsTasks(cfg, s, calls);
    Follow(cfg, Run(cfg, s, calls), others(i).second, id)
  }

  /** What a reader gets of the first n ids. */
  ghost function LookupEach(cfg: Config, s: EngineState, others: nat -> Round, ids: seq<string>, n: nat)
    : (found: seq<TaskView>)
    requires n <= |ids| && forall i :: 0 <= i < n ==> ids[i] in s.tasks
    ensures |found| == n
  {
    if n == 0 then []
    else LookupEach(cfg, s, others, ids, n - 1) + [LookupAfter(cfg, s, others, n - 1, ids[n - 1])]
  }

  /** The first n of the tasks that `s` holds, each as it is after one more turn of the others. */
  ghost function FollowEach(cfg: Config, s: EngineState, others: nat -> seq<Op>, ids: seq<string>, n: nat)
    : (found: seq<TaskView>)
    requires n <= |ids| && forall i :: 0 <= i < n ==> ids[i] in s.tasks
    ensures |found| == n
  {
    if n == 0 then []
    else FollowEach(cfg, s, others, ids, n - 1) + [Follow(cfg, s, Turns(others, n), ids[n - 1])]
  }

  // ---------------------------------------------------------------- what readers get of each task

  /** All the ids name tasks. */
  ghost predicate AllTasks(s: EngineState, ids: seq<string>) {
    forall i :: 0 <= i < |ids| ==> ids[i] in s.tasks
  }

  /** The i-th thing that a reader of workflow tasks gets is the i-th task listed, as it was read in the i-th round. */
  lemma {:induction false} LookupEachAt(cfg: Config, s: EngineState, others: nat -> Round, ids: seq<string>, n: nat,
                                        i: nat)
    requires i < n <= |ids| && AllTasks(s, ids)
    ensures var found := LookupEach(cfg, s, others, ids, n);
            |found| == n && found[i] == LookupAfter(cfg, s, others, i, ids[i])
  {
    var earlier := LookupEach(cfg, s, others, ids, n - 1);
    assert LookupEach(cfg, s, others, ids, n) == earlier + [LookupAfter(cfg, s, others, n - 1, ids[n - 1])];
    if i < n - 1 {
      LookupEachAt(cfg, s, others, ids, n - 1, i);
    }
  }

  /** The i-th task that was selected, as it is after i + 1 turns of the others. */
  lemma {:induction false} FollowEachAt(cfg: Config, s: EngineState, others: nat -> seq<Op>, ids: seq<string>, n: nat,
                                        i: nat)
    requires i < n <= |ids| && AllTasks(s, ids)
    ensures var found := FollowEach(cfg, s, others, ids, n);
            |found| == n && found[i] == Follow(cfg, s, Turns(others, i + 1), ids[i])
  {
    var earlier := FollowEach(cfg, s, others, ids, n - 1);
    assert FollowEach(cfg, s, others, ids, n) == earlier + [Follow(cfg, s, Turns(others, n), ids[n - 1])];
    if i < n - 1 {
      FollowEachAt(cfg, s, others, ids, n - 1, i);
    }
  }

  /** Where the calls of turn i stand among those of the first n: every turn is taken once, in order. */
  lemma {:induction false} TurnsInOrder(others: nat -> seq<Op>, n: nat, i: nat)
    requires i < n
    ensures var calls, from := Turns(others, n), |Turns(others, i)|;
            from + |others(i)| <= |calls| && calls[from..from + |others(i)|] == others(i)
  {
    var from := |Turns(others, i)|;
    if i < n - 1 {
      TurnsInOrder(others, n - 1, i);
      assert Turns(others, n)[from..from + |others(i)|] == Turns(others, n - 1)[from..from + |others(i)|];
    }
  }

  /** The same for rounds. */
  lemma {:induction false} RoundsInOrder(others: nat -> Round, n: nat, i: nat)
    requires i < n
    ensures var calls, from, round := Rounds(others, n), |Rounds(others, i)|, others(i).first + others(i).second;
            from + |round| <= |calls| && calls[from..from + |round|] == round
  {
    var from, round := |Rounds(others, i)|, others(i).first + others(i).second;
    if i < n - 1 {
      RoundsInOrder(others, n - 1, i);
      assert Rounds(others, n)[from..from + |round|] == Rounds(others, n - 1)[from..from + |round|];
    }
  }

  // ---------------------------------------------------------------- under which id

  /** Each task is kept under its own id. */
  ghost predicate Named(s: EngineState) {
    forall id :: id in s.tasks ==> s.tasks[id].id == id
  }

  lemma {:induction false} RunKeepsNames(cfg: Config, s: EngineState, ops: seq<Op>)
    requires Named(s)
    ensures Named(Run(cfg, s, ops))
  {
    if ops != [] {
      RunKeepsNames(cfg, s, ops[..|ops| - 1]);
      StepKeepsNames(cfg, Run(cfg, s, ops[..|ops| - 1]), ops[|ops| - 1]);
    }
  }

  lemma StepKeepsNames(cfg: Config, s: EngineState, op: Op)
    requires Named(s)
    ensures Named(Step(cfg, s, op))
  {
  }

  lemma {:induction false} FollowKeepsName(cfg: Config, s: EngineState, ops: seq<Op>, id: string)
    requires Named(s) && id in s.tasks
    ensures Follow(cfg, s, ops, id).id == id
  {
    if NotRemade(cfg, s, ops, id) {
      FollowWhileKept(cfg, s, ops, id);
      RunKeepsNames(cfg, s, ops);
    } else {
      FollowKeepsName(cfg, s, ops[..|ops| - 1], id);
    }
  }

  /** The tasks have these ids, in this order. */
  predicate HaveIds(found: seq<TaskView>, ids: seq<string>) {
    |found| == |ids| && forall i :: 0 <= i < |ids| ==> found[i].id == ids[i]
  }

  lemma LookupEachIds(cfg: Config, s: EngineState, others: nat -> Round, ids: seq<string>)
    requires Named(s) && AllTasks(s, ids)
    ensures HaveIds(LookupEach(cfg, s, others, ids, |ids|), ids)
  {
    forall i | 0 <= i < |ids|
      ensures LookupEach(cfg, s, others, ids, |ids|)[i].id == ids[i]
    {
      LookupEachAt(cfg, s, others, ids, |ids|, i);
      LookupKeepsName(cfg, s, others, i, ids[i]);
    }
  }

  lemma LookupKeepsName(cfg: Config, s: EngineState, others: nat -> Round, i: nat, id: string)
    requires Named(s) && id in s.tasks
    ensures LookupAfter(cfg, s, others, i, id).id == id
  {
    var calls := Rounds(others, i) + others(i).first;
    RunKeepsTasks(cfg, s, calls);
    RunKeepsNames(cfg, s, calls);
    FollowKeepsName(cfg, Run(cfg, s, calls), others(i).second, id);
  }

  lemma FollowEachIds(cfg: Config, s: EngineState, others: nat -> seq<Op>, ids: seq<string>)
    requires Named(s) && AllTasks(s, ids)
    ensures HaveIds(FollowEach(cfg, s, others, ids, |ids|), ids)
  {
    forall i | 0 <= i < |ids|
      ensures FollowEach(cfg, s, others, ids, |ids|)[i].id == ids[i]
    {
      FollowEachAt(cfg, s, others, ids, |ids|, i);
      FollowKeepsName(cfg, s, Turns(others, i + 1), ids[i]);
    }
  }
}
