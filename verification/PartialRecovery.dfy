/** Recovery from part of the log: for one task, for one partition, and when part of the log is read again. */
module PartialRecovery {
  import opened Results
  import opened TaskState
  import opened Tasks
  import opened Wal
  import opened Partition
  import opened EngineSpec
  import opened Interleaving
  import opened Recovery

  // ---------------------------------------------------------------- one task at a time

  function Lookup(snap: Snapshot, id: string): Option<Recovered> {
    if id in snap.tasks then Some(snap.tasks[id]) else None
  }

  /** The fold as one task sees it. */
  function FoldOne(cfg: Config, r: Option<Recovered>, es: seq<Entry>, id: string): Option<Recovered> {
    if es == [] then r else
      var before, e := FoldOne(cfg, r, es[..|es| - 1], id), es[|es| - 1];
      if e.taskId != id then before
      else if before.Some? then Some(Advance(before.value, e.state))
      else Some(First(cfg, e))
  }

  lemma {:induction false} LookupIsLocal(cfg: Config, snap: Snapshot, es: seq<Entry>, id: string)
    ensures Lookup(Fold(cfg, snap, es), id) == FoldOne(cfg, Lookup(snap, id), es, id)
  {
    if es != [] {
      LookupIsLocal(cfg, snap, es[..|es| - 1], id);
    }
  }

  lemma SameLookups(a: map<string, Recovered>, b: map<string, Recovered>, index: map<string, seq<string>>)
    requires forall id :: Lookup(Snapshot(a, index), id) == Lookup(Snapshot(b, index), id)
    ensures a == b
  {
    forall id
      ensures id in a <==> id in b
      ensures id in a && id in b ==> a[id] == b[id]
    {
      assert Lookup(Snapshot(a, index), id) == Lookup(Snapshot(b, index), id);
    }
  }

  // ---------------------------------------------------------------- part of the tasks

  /** The entries of the tasks that `p` selects, in order. */
  function Keep(es: seq<Entry>, p: string -> bool): seq<Entry> {
    if es == [] then [] else
      Keep(es[..|es| - 1], p) + if p(es[|es| - 1].taskId) then [es[|es| - 1]] else []
  }

  lemma FoldOneSnoc(cfg: Config, r: Option<Recovered>, es: seq<Entry>, e: Entry, id: string)
    ensures var before := FoldOne(cfg, r, es, id);
            FoldOne(cfg, r, es + [e], id) ==
            if e.taskId != id then before
            else if before.Some? then Some(Advance(before.value, e.state))
            else Some(First(cfg, e))
  {
    assert (es + [e])[..|es|] == es;
  }

  lemma {:induction false} KeepIsLocal(cfg: Config, r: Option<Recovered>, es: seq<Entry>, p: string -> bool, id: string)
    ensures FoldOne(cfg, r, Keep(es, p), id) == if p(id) then FoldOne(cfg, r, es, id) else r
  {
    if es != [] {
      var before, e := es[..|es| - 1], es[|es| - 1];
      KeepIsLocal(cfg, r, before, p, id);
      if p(e.taskId) {
        assert Keep(es, p) == Keep(before, p) + [e];
        FoldOneSnoc(cfg, r, Keep(before, p), e, id);
      } else {
        assert Keep(es, p) == Keep(before, p);
      }
    }
  }

  /** Folding the entries of some tasks gives those tasks, as the whole log has them, and no other. */
  lemma {:induction false} KeepRecoversSelection(cfg: Config, es: seq<Entry>, p: string -> bool)
    ensures var whole := Recover(cfg, es).tasks;
            Recover(cfg, Keep(es, p)).tasks == map id | id in whole && p(id) :: whole[id]
  {
    var whole, part := Recover(cfg, es).tasks, Recover(cfg, Keep(es, p)).tasks;
    forall id
      ensures id in part <==> id in whole && p(id)
      ensures id in part && id in whole ==> part[id] == whole[id]
    {
      LookupIsLocal(cfg, NOTHING, es, id);
      LookupIsLocal(cfg, NOTHING, Keep(es, p), id);
      KeepIsLocal(cfg, None, es, p, id);
    }
  }

  predicate InPartition(cfg: Config, id: string, k: int) {
    PartitionOf(cfg, id) == Success(k)
  }

  // ---------------------------------------------------------------- a task whose id was not reused

  ghost function EssenceHeld(s: EngineState, id: string): Option<Recovered> {
    if id in s.tasks then Some(Essence(s.tasks[id])) else None
  }

  lemma EffectFollowedByOne(cfg: Config, s: EngineState, s': EngineState, effect: Effect, id: string)
    requires Explains(cfg, s, s', effect) && !(effect.Birth? && effect.t.id == id && id in s.tasks)
    requires FoldOne(cfg, None, s.log.history, id) == EssenceHeld(s, id)
    ensures FoldOne(cfg, None, s'.log.history, id) == EssenceHeld(s', id)
  {
    if effect.Move? || effect.Birth? {
      FoldOneSnoc(cfg, None, s.log.history, effect.entry, id);
    }
    if effect.Move? && effect.t.id == id {
      EssenceAfter(effect.t, effect.newState, effect.updated, effect.stamped);
    }
  }

  /** The log rebuilds each task that no create overwrote, whatever became of the others. */
  lemma {:induction false} TaskRecovers(cfg: Config, ops: seq<Op>, id: string)
    requires NotRemade(cfg, NEW_ENGINE, ops, id)
    ensures var s := Run(cfg, NEW_ENGINE, ops); Lookup(Recover(cfg, s.log.history), id) == EssenceHeld(s, id)
  {
    var s := Run(cfg, NEW_ENGINE, ops);
    LookupIsLocal(cfg, NOTHING, s.log.history, id);
    if ops != [] {
      var before, op := ops[..|ops| - 1], ops[|ops| - 1];
      var mid := Run(cfg, NEW_ENGINE, before);
      TaskRecovers(cfg, before, id);
      LookupIsLocal(cfg, NOTHING, mid.log.history, id);
      RunKeepsInv(cfg, before);
      var effect := Explain(cfg, mid, op);
      EffectFollowedByOne(cfg, mid, s, effect, id);
    }
  }

  // ---------------------------------------------------------------- one partition

  /** The entries of the tasks in partition k. */
  function OfPartition(cfg: Config, es: seq<Entry>, k: int): seq<Entry> {
    Keep(es, id => InPartition(cfg, id, k))
  }

  lemma PartitionOfTask(cfg: Config, ops: seq<Op>, id: string)
    requires id in Run(cfg, NEW_ENGINE, ops).tasks
    ensures PartitionOf(cfg, id) == Success(Run(cfg, NEW_ENGINE, ops).tasks[id].partitionId)
  {
    RunKeepsInv(cfg, ops);
    assert TaskInv(cfg, id, Run(cfg, NEW_ENGINE, ops).tasks[id]);
  }

  lemma PartitionRecoversTask(cfg: Config, ops: seq<Op>, k: int, id: string)
    requires InPartition(cfg, id, k) ==> NotRemade(cfg, NEW_ENGINE, ops, id)
    ensures var s := Run(cfg, NEW_ENGINE, ops);
            var part := Recover(cfg, OfPartition(cfg, s.log.history, k)).tasks;
            && (id in part <==> id in s.tasks && s.tasks[id].partitionId == k)
            && (id in part ==> part[id] == Essence(s.tasks[id]))
  {
    var s := Run(cfg, NEW_ENGINE, ops);
    KeepRecoversSelection(cfg, s.log.history, other => InPartition(cfg, other, k));
    if id in s.tasks {
      PartitionOfTask(cfg, ops, id);
    }
    if InPartition(cfg, id, k) {
      TaskRecovers(cfg, ops, id);
    }
  }

  /**
   * The entries of one partition rebuild the tasks GetTasksForPartition selects, in every run that overwrites none of
   * them; it may overwrite tasks of other partitions.
   */
  lemma {:induction false} PartitionRecovers(cfg: Config, ops: seq<Op>, k: int)
    requires forall id :: InPartition(cfg, id, k) ==> NotRemade(cfg, NEW_ENGINE, ops, id)
    ensures var s := Run(cfg, NEW_ENGINE, ops);
            Recover(cfg, OfPartition(cfg, s.log.history, k)).tasks
            == map id | id in s.tasks && s.tasks[id].partitionId == k :: Essence(s.tasks[id])
  {
    var s := Run(cfg, NEW_ENGINE, ops);
    var part := Recover(cfg, OfPartition(cfg, s.log.history, k)).tasks;
    forall id
      ensures id in part <==> id in s.tasks && s.tasks[id].partitionId == k
      ensures id in part ==> part[id] == Essence(s.tasks[id])
    {
      PartitionRecoversTask(cfg, ops, k, id);
    }
  }

  /** What the first n partitions rebuild, each from its own entries. */
  function Merged(cfg: Config, es: seq<Entry>, n: nat): map<string, Recovered> {
    if n == 0 then map[] else Merged(cfg, es, n - 1) + Recover(cfg, OfPartition(cfg, es, n - 1)).tasks
  }

  lemma {:induction false} MergedSelects(cfg: Config, es: seq<Entry>, n: nat, id: string)
    ensures var whole, merged := Recover(cfg, es).tasks, Merged(cfg, es, n);
            && (id in merged <==> id in whole && exists k :: 0 <= k < n && InPartition(cfg, id, k))
            && (id in merged ==> merged[id] == whole[id])
  {
    if n > 0 {
      MergedSelects(cfg, es, n - 1, id);
      KeepRecoversSelection(cfg, es, other => InPartition(cfg, other, n - 1));
      var part := Recover(cfg, OfPartition(cfg, es, n - 1)).tasks;
      assert id in part <==> id in Recover(cfg, es).tasks && InPartition(cfg, id, n - 1);
    }
  }

  /** Every entry of a run is about a task that was put in a partition. */
  lemma {:induction false} LoggedIsPlaced(cfg: Config, ops: seq<Op>, id: string)
    requires id in Recover(cfg, Run(cfg, NEW_ENGINE, ops).log.history).tasks
    ensures PartitionOf(cfg, id).Success?
  {
    var before, op := ops[..|ops| - 1], ops[|ops| - 1];
    var s := Run(cfg, NEW_ENGINE, before);
    if id in Recover(cfg, s.log.history).tasks {
      LoggedIsPlaced(cfg, before, id);
    } else {
      RunKeepsInv(cfg, before);
      var effect := Explain(cfg, s, op);
      assert effect.Move? || effect.Birth?;
      FoldSnoc(cfg, NOTHING, s.log.history, effect.entry);
      if effect.Move? {
        PartitionOfTask(cfg, before, id);
      }
    }
  }

  /** After every run, what the partitions rebuild one by one is together what the whole log rebuilds. */
  lemma {:induction false} PartitionsMakeTheWhole(cfg: Config, ops: seq<Op>)
    ensures var h := Run(cfg, NEW_ENGINE, ops).log.history; Merged(cfg, h, cfg.count) == Recover(cfg, h).tasks
  {
    var h := Run(cfg, NEW_ENGINE, ops).log.history;
    var merged, whole := Merged(cfg, h, cfg.count), Recover(cfg, h).tasks;
    forall id
      ensures id in merged <==> id in whole
      ensures id in merged ==> merged[id] == whole[id]
    {
      MergedSelects(cfg, h, cfg.count, id);
      if id in whole {
        LoggedIsPlaced(cfg, ops, id);
        assert InPartition(cfg, id, PartitionOf(cfg, id).value);
      }
    }
  }

  // ---------------------------------------------------------------- logs that agree task by task

  function Projection(es: seq<Entry>, id: string): seq<Entry> {
    Keep(es, other => other == id)
  }

  /** Only the order within each task matters: logs with the same projections rebuild the same tasks. */
  lemma SameProjectionsSameTasks(cfg: Config, a: seq<Entry>, b: seq<Entry>)
    requires forall id :: Projection(a, id) == Projection(b, id)
    ensures Recover(cfg, a).tasks == Recover(cfg, b).tasks
  {
    forall id
      ensures Lookup(Snapshot(Recover(cfg, a).tasks, map[]), id) == Lookup(Snapshot(Recover(cfg, b).tasks, map[]), id)
    {
      assert Projection(a, id) == Projection(b, id);
      LookupIsLocal(cfg, NOTHING, a, id);
      LookupIsLocal(cfg, NOTHING, b, id);
      KeepIsLocal(cfg, None, a, other => other == id, id);
      KeepIsLocal(cfg, None, b, other => other == id, id);
    }
    SameLookups(Recover(cfg, a).tasks, Recover(cfg, b).tasks, map[]);
  }

  // ---------------------------------------------------------------- part of the time

  function Dispatches(es: seq<Entry>, id: string): nat {
    if es == [] then 0 else
      Dispatches(es[..|es| - 1], id) + if es[|es| - 1].taskId == id && es[|es| - 1].state == Dispatched then 1 else 0
  }

  /** The state after the entries, for a task that was in state `s` before them. */
  function LastState(es: seq<Entry>, id: string, s: State): State {
    if es == [] then s
    else if es[|es| - 1].taskId == id then es[|es| - 1].state
    else LastState(es[..|es| - 1], id, s)
  }

  lemma {:induction false} FoldOneConcat(cfg: Config, r: Option<Recovered>, a: seq<Entry>, b: seq<Entry>, id: string)
    ensures FoldOne(cfg, r, a + b, id) == FoldOne(cfg, FoldOne(cfg, r, a, id), b, id)
  {
    if b == [] {
      assert a + b == a;
    } else {
      FoldOneConcat(cfg, r, a, b[..|b| - 1], id);
      assert (a + b)[..|a + b| - 1] == a + b[..|b| - 1];
    }
  }

  /** For a known task the entries change the state and count the dispatches. */
  lemma {:induction false} FoldOneKnown(cfg: Config, r: Recovered, es: seq<Entry>, id: string)
    ensures FoldOne(cfg, Some(r), es, id) ==
            Some(r.(state := LastState(es, id, r.state), attempts := r.attempts + Dispatches(es, id)))
  {
    if es != [] {
      FoldOneKnown(cfg, r, es[..|es| - 1], id);
    }
  }

  /** The state a task has after some entries does not change when the same entries are read again. */
  lemma {:induction false} LastStateAgain(cfg: Config, r: Option<Recovered>, es: seq<Entry>, id: string)
    ensures var got := FoldOne(cfg, r, es, id);
            got.Some? ==> LastState(es, id, got.value.state) == got.value.state
    ensures FoldOne(cfg, r, es, id).None? ==>
              Dispatches(es, id) == 0 && r.None? && forall s :: LastState(es, id, s) == s
  {
    if es != [] {
      LastStateAgain(cfg, r, es[..|es| - 1], id);
    }
  }

  function Overcounted(r: Option<Recovered>, extra: nat): Option<Recovered> {
    if r.None? then None else Some(r.value.(attempts := r.value.attempts + extra))
  }

  /** Reading entries again on top of what they already produced changes nothing but the attempts. */
  lemma RereadOne(cfg: Config, a: seq<Entry>, b: seq<Entry>, c: seq<Entry>, id: string)
    ensures FoldOne(cfg, FoldOne(cfg, None, a + b, id), b + c, id)
         == Overcounted(FoldOne(cfg, None, a + b + c, id), Dispatches(b, id))
  {
    var base := FoldOne(cfg, None, a + b, id);
    FoldOneConcat(cfg, base, b, c, id);
    FoldOneConcat(cfg, None, a + b, c, id);
    FoldOneConcat(cfg, None, a, b, id);
    LastStateAgain(cfg, FoldOne(cfg, None, a, id), b, id);
    if base.Some? {
      FoldOneKnown(cfg, base.value, b, id);
      var mid := base.value.(attempts := base.value.attempts + Dispatches(b, id));
      assert FoldOne(cfg, base, b, id) == Some(mid);
      FoldOneKnown(cfg, base.value, c, id);
      FoldOneKnown(cfg, mid, c, id);
    } else {
      FoldNothingToldOfB(cfg, b, id);
      LastStateAgain(cfg, None, b, id);
      assert FoldOne(cfg, None, b, id) == None;
    }
  }

  lemma {:induction false} FoldNothingToldOfB(cfg: Config, es: seq<Entry>, id: string)
    ensures FoldOne(cfg, None, es, id).None? <==> forall i :: 0 <= i < |es| ==> es[i].taskId != id
  {
    if es != [] {
      FoldNothingToldOfB(cfg, es[..|es| - 1], id);
    }
  }

  /** The index depends on the known ids only, so it is not disturbed either. */
  lemma {:induction false} IndexIgnoresKnown(cfg: Config, x: Snapshot, y: Snapshot, es: seq<Entry>)
    requires x.tasks.Keys == y.tasks.Keys && x.workflowTasks == y.workflowTasks
    ensures Fold(cfg, x, es).tasks.Keys == Fold(cfg, y, es).tasks.Keys
    ensures Fold(cfg, x, es).workflowTasks == Fold(cfg, y, es).workflowTasks
  {
    if es != [] {
      IndexIgnoresKnown(cfg, x, y, es[..|es| - 1]);
    }
  }

  lemma {:induction false} KnownEntriesKeepIndex(cfg: Config, x: Snapshot, es: seq<Entry>)
    requires forall i :: 0 <= i < |es| ==> es[i].taskId in x.tasks
    ensures Fold(cfg, x, es).tasks.Keys == x.tasks.Keys && Fold(cfg, x, es).workflowTasks == x.workflowTasks
  {
    if es != [] {
      KnownEntriesKeepIndex(cfg, x, es[..|es| - 1]);
    }
  }

  lemma {:induction false} FoldKnowsItsEntries(cfg: Config, x: Snapshot, es: seq<Entry>)
    ensures x.tasks.Keys <= Fold(cfg, x, es).tasks.Keys
    ensures forall i :: 0 <= i < |es| ==> es[i].taskId in Fold(cfg, x, es).tasks
  {
    if es != [] {
      FoldKnowsItsEntries(cfg, x, es[..|es| - 1]);
    }
  }

  lemma RereadKeepsIndex(cfg: Config, a: seq<Entry>, b: seq<Entry>, c: seq<Entry>)
    ensures Fold(cfg, Recover(cfg, a + b), b + c).workflowTasks == Recover(cfg, a + b + c).workflowTasks
  {
    var base := Recover(cfg, a + b);
    FoldConcat(cfg, base, b, c);
    FoldConcat(cfg, NOTHING, a + b, c);
    FoldConcat(cfg, NOTHING, a, b);
    FoldKnowsItsEntries(cfg, Recover(cfg, a), b);
    KnownEntriesKeepIndex(cfg, base, b);
    IndexIgnoresKnown(cfg, base, Fold(cfg, base, b), c);
  }

  lemma RereadLookup(cfg: Config, a: seq<Entry>, b: seq<Entry>, c: seq<Entry>, id: string)
    ensures Lookup(Fold(cfg, Recover(cfg, a + b), b + c), id)
         == Overcounted(Lookup(Recover(cfg, a + b + c), id), Dispatches(b, id))
  {
    LookupIsLocal(cfg, Recover(cfg, a + b), b + c, id);
    LookupIsLocal(cfg, NOTHING, a + b, id);
    LookupIsLocal(cfg, NOTHING, a + b + c, id);
    RereadOne(cfg, a, b, c, id);
  }

  /** `want` with the dispatches in `b` counted once more. */
  function Overcount(want: map<string, Recovered>, b: seq<Entry>): map<string, Recovered> {
    map id | id in want :: want[id].(attempts := want[id].attempts + Dispatches(b, id))
  }

  /**
   * A snapshot taken after a + b, brought up to date by reading b and c: the index and everything about the tasks
   * is right, except that the dispatches in b are counted twice.
   */
  lemma Reread(cfg: Config, a: seq<Entry>, b: seq<Entry>, c: seq<Entry>)
    ensures var got, want := Fold(cfg, Recover(cfg, a + b), b + c), Recover(cfg, a + b + c);
            got.workflowTasks == want.workflowTasks && got.tasks == Overcount(want.tasks, b)
  {
    RereadKeepsIndex(cfg, a, b, c);
    var got, want := Fold(cfg, Recover(cfg, a + b), b + c), Recover(cfg, a + b + c);
    var expected := Overcount(want.tasks, b);
    forall id
      ensures id in got.tasks <==> id in expected
      ensures id in got.tasks && id in expected ==> got.tasks[id] == expected[id]
    {
      RereadLookup(cfg, a, b, c, id);
    }
    assert got.tasks.Keys == expected.Keys;
  }

  lemma {:induction false} DispatchesPositiveIff(es: seq<Entry>, id: string)
    ensures Dispatches(es, id) > 0 <==> exists i :: 0 <= i < |es| && es[i].taskId == id && es[i].state == Dispatched
  {
    if es != [] {
      var last := |es| - 1;
      DispatchesPositiveIff(es[..last], id);
      assert forall i :: 0 <= i < last ==> es[..last][i] == es[i];
    }
  }

  /** Reading b again gives the right tasks exactly when b dispatches nothing. */
  lemma RereadExactIff(cfg: Config, a: seq<Entry>, b: seq<Entry>, c: seq<Entry>)
    ensures Fold(cfg, Recover(cfg, a + b), b + c) == Recover(cfg, a + b + c) <==>
            forall i :: 0 <= i < |b| ==> b[i].state != Dispatched
  {
    Reread(cfg, a, b, c);
    var got, want := Fold(cfg, Recover(cfg, a + b), b + c), Recover(cfg, a + b + c);
    if i :| 0 <= i < |b| && b[i].state == Dispatched {
      var id := b[i].taskId;
      DispatchesPositiveIff(b, id);
      FoldKnowsItsEntries(cfg, NOTHING, a + b + c);
      assert (a + b + c)[|a| + i] == b[i];
      assert got.tasks[id].attempts == want.tasks[id].attempts + Dispatches(b, id);
    } else {
      forall id ensures Dispatches(b, id) == 0 {
        DispatchesPositiveIff(b, id);
      }
      assert got.tasks == want.tasks;
    }
  }

  /** The same for positions in one log: a snapshot after m entries, read on from entry `upTo`. */
  lemma RereadFromIff(cfg: Config, h: seq<Entry>, m: nat, upTo: nat)
    requires upTo <= m <= |h|
    ensures Fold(cfg, Recover(cfg, h[..m]), h[upTo..]) == Recover(cfg, h) <==>
            forall i :: upTo <= i < m ==> h[i].state != Dispatched
  {
    var a, b, c := h[..upTo], h[upTo..m], h[m..];
    assert a + b == h[..m] && a + b + c == h && b + c == h[upTo..];
    RereadExactIff(cfg, a, b, c);
    assert forall i :: upTo <= i < m ==> h[i] == b[i - upTo];
    assert forall i :: 0 <= i < |b| ==> b[i] == h[upTo + i];
  }

  // ---------------------------------------------------------------- a task that was overwritten

  /** Where the log holds the creation entry of the task that the engine holds now: the last one of its id. */
  ghost function MadeAt(cfg: Config, ops: seq<Op>, id: string): nat {
    if ops == [] then 0 else
      var before, op := ops[..|ops| - 1], ops[|ops| - 1];
      var s := Run(cfg, NEW_ENGINE, before);
      if Creates(cfg, s, op) && NewId(op) == id then |s.log.history| else MadeAt(cfg, before, id)
  }

  /** Where the first entry of the id stands, or the length of the log. */
  function FirstAt(es: seq<Entry>, id: string): (i: nat)
    ensures i <= |es| && (i < |es| ==> es[i].taskId == id)
    ensures forall j :: 0 <= j < i ==> es[j].taskId != id
  {
    if es == [] then 0 else
      var before := es[..|es| - 1];
      var i := FirstAt(before, id);
      assert forall j :: 0 <= j < |before| ==> before[j] == es[j];
      if i < |before| || es[|before|].taskId == id then i else |es|
  }

  /** The entries since its creation entry rebuild the task as the engine holds it. */
  ghost predicate MadeThere(cfg: Config, s: EngineState, id: string, p: nat) {
    && id in s.tasks && p < |s.log.history| && s.log.history[p].taskId == id
    && FoldOne(cfg, None, s.log.history[p..], id) == Some(Essence(s.tasks[id]))
  }

  lemma EffectMade(cfg: Config, s: EngineState, s': EngineState, effect: Effect, id: string, p: nat)
    requires Explains(cfg, s, s', effect) && MadeThere(cfg, s, id, p) && !(effect.Birth? && effect.t.id == id)
    ensures MadeThere(cfg, s', id, p)
  {
    if effect.Move? || effect.Birth? {
      assert s'.log.history[p..] == s.log.history[p..] + [effect.entry];
      FoldOneSnoc(cfg, None, s.log.history[p..], effect.entry, id);
    }
    if effect.Move? && effect.t.id == id {
      EssenceAfter(effect.t, effect.newState, effect.updated, effect.stamped);
    }
  }

  lemma BirthMade(cfg: Config, s: EngineState, s': EngineState, effect: Effect)
    requires Explains(cfg, s, s', effect) && effect.Birth?
    ensures MadeThere(cfg, s', effect.t.id, |s.log.history|)
  {
    assert s'.log.history[|s.log.history|..] == [] + [effect.entry];
    FoldOneSnoc(cfg, None, [], effect.entry, effect.t.id);
  }

  lemma {:induction false} TaskMadeThere(cfg: Config, ops: seq<Op>, id: string)
    requires id in Run(cfg, NEW_ENGINE, ops).tasks
    ensures MadeThere(cfg, Run(cfg, NEW_ENGINE, ops), id, MadeAt(cfg, ops, id))
  {
    var before, op := ops[..|ops| - 1], ops[|ops| - 1];
    var s := Run(cfg, NEW_ENGINE, before);
    RunKeepsInv(cfg, before);
    var effect := Explain(cfg, s, op);
    if effect.Birth? && effect.t.id == id {
      BirthMade(cfg, s, Step(cfg, s, op), effect);
    } else {
      TaskMadeThere(cfg, before, id);
      EffectMade(cfg, s, Step(cfg, s, op), effect, id, MadeAt(cfg, before, id));
    }
  }

  lemma {:induction false} DispatchesAddUp(a: seq<Entry>, b: seq<Entry>, id: string)
    ensures Dispatches(a + b, id) == Dispatches(a, id) + Dispatches(b, id)
  {
    if b == [] {
      assert a + b == a;
    } else {
      DispatchesAddUp(a, b[..|b| - 1], id);
      assert (a + b)[..|a + b| - 1] == a + b[..|b| - 1];
    }
  }

  /** What the entries of one task rebuild: workflow and payload of the first, the state of the last. */
  lemma {:induction false} FoldOneFirst(cfg: Config, es: seq<Entry>, id: string, f: nat, from: State)
    requires f < |es| && es[f].taskId == id && forall i :: 0 <= i < f ==> es[i].taskId != id
    ensures FoldOne(cfg, None, es, id) == Some(First(cfg, es[f]).(state := LastState(es, id, from),
                                                                 attempts := Dispatches(es, id)))
  {
    var before, e := es[..|es| - 1], es[|es| - 1];
    assert forall i :: 0 <= i < |before| ==> before[i] == es[i];
    if f < |before| {
      FoldOneFirst(cfg, before, id, f, from);
    } else {
      FoldNothingToldOfB(cfg, before, id);
      DispatchesPositiveIff(before, id);
    }
  }

  lemma {:induction false} LastStateOfRest(es: seq<Entry>, id: string, p: nat, from: State)
    requires p < |es| && es[p].taskId == id
    ensures LastState(es, id, from) == LastState(es[p..], id, from)
  {
    if p < |es| - 1 {
      LastStateOfRest(es[..|es| - 1], id, p, from);
      assert es[p..][..|es[p..]| - 1] == es[..|es| - 1][p..];
    }
  }

  lemma SameRebuiltIff(cfg: Config, h: seq<Entry>, id: string, f: nat, p: nat)
    requires f <= p < |h| && h[f].taskId == id == h[p].taskId && forall i :: 0 <= i < f ==> h[i].taskId != id
    ensures FoldOne(cfg, None, h, id) == FoldOne(cfg, None, h[p..], id) <==>
            h[f].workflowId == h[p].workflowId && h[f].data == h[p].data && Dispatches(h[..p], id) == 0
  {
    FoldOneFirst(cfg, h, id, f, Pending);
    FoldOneFirst(cfg, h[p..], id, 0, Pending);
    LastStateOfRest(h, id, p, Pending);
    DispatchesAddUp(h[..p], h[p..], id);
    assert h[..p] + h[p..] == h;
  }

  /**
   * In every run: the log rebuilds a task, also one that a create has overwritten, exactly when the first entry of its
   * id names the workflow and holds the payload of the last creation, and the id was not dispatched before that.
   */
  lemma {:induction false} TaskRecoversIff(cfg: Config, ops: seq<Op>, id: string)
    requires id in Run(cfg, NEW_ENGINE, ops).tasks
    ensures var s := Run(cfg, NEW_ENGINE, ops);
            var h, p := s.log.history, MadeAt(cfg, ops, id);
            var f := FirstAt(h, id);
            && f <= p < |h|
            && (Lookup(Recover(cfg, h), id) == EssenceHeld(s, id) <==>
                h[f].workflowId == h[p].workflowId && h[f].data == h[p].data && Dispatches(h[..p], id) == 0)
  {
    var h, p := Run(cfg, NEW_ENGINE, ops).log.history, MadeAt(cfg, ops, id);
    TaskMadeThere(cfg, ops, id);
    LookupIsLocal(cfg, NOTHING, h, id);
    SameRebuiltIff(cfg, h, id, FirstAt(h, id), p);
  }
}
