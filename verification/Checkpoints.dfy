/** Recovery from an earlier engine and what Replay returns after a checkpoint. */
module Checkpoints {
  import opened Results
  import opened TaskState
  import opened Tasks
  import opened Wal
  import opened Partition
  import opened EngineSpec
  import opened Interleaving
  import opened Recovery
  import opened PartialRecovery
  import opened History
  import opened GapOrder

  lemma {:induction false} FreshPrefix(cfg: Config, ops: seq<Op>, k: nat)
    requires IdsFresh(cfg, NEW_ENGINE, ops) && k <= |ops|
    ensures IdsFresh(cfg, NEW_ENGINE, ops[..k])
    ensures Run(cfg, NEW_ENGINE, ops[..k]).log.history <= Run(cfg, NEW_ENGINE, ops).log.history
  {
    if k == |ops| {
      assert ops[..k] == ops;
    } else {
      var before, op := ops[..|ops| - 1], ops[|ops| - 1];
      FreshPrefix(cfg, before, k);
      assert before[..k] == ops[..k];
      var s := Run(cfg, NEW_ENGINE, before);
      RunKeepsInv(cfg, before);
      var effect := Explain(cfg, s, op);
    }
  }

  /** The position in the history from which Replay reads after a checkpoint at `upTo`: it counts what is held. */
  function ReadFrom(log: LogState, upTo: nat): nat
    requires |log.entries| <= |log.history|
  {
    if upTo >= |log.entries| then |log.history| else |log.history| - |log.entries| + upTo
  }

  lemma ReplayAfterCheckpoint(log: LogState, upTo: nat)
    requires LogInv(log) && upTo <= log.sequence
    ensures CheckpointAt(log, upTo).1 == Success(())
    ensures Uncommitted(CheckpointAt(log, upTo).0) == log.history[ReadFrom(log, upTo)..]
  {
  }

  // ---------------------------------------------------------------- one task whose entries have a gap

  lemma {:induction false} StatesConcat(a: seq<Entry>, b: seq<Entry>, id: string)
    ensures States(a + b, id) == States(a, id) + States(b, id)
  {
    if b == [] {
      assert a + b == a;
    } else {
      StatesConcat(a, b[..|b| - 1], id);
      assert a + b == (a + b[..|b| - 1]) + [b[|b| - 1]];
      StatesGrow(a + b[..|b| - 1], b[|b| - 1], id);
    }
  }

  lemma {:induction false} DispatchesAreCounted(es: seq<Entry>, id: string)
    ensures Dispatches(es, id) == DispatchCount(States(es, id))
  {
    if es != [] {
      var before, e := es[..|es| - 1], es[|es| - 1];
      DispatchesAreCounted(before, id);
      assert es == before + [e];
      StatesGrow(before, e, id);
      DispatchesGrow(States(before, id), e.state);
    }
  }

  /** The entries of `id` name its workflow, and all but final ones hold its payload. */
  ghost predicate Carries(es: seq<Entry>, id: string, workflowId: string, payload: Bytes) {
    forall i :: 0 <= i < |es| && es[i].taskId == id ==>
      es[i].workflowId == workflowId && (es[i].state in {Completed, Failed} || es[i].data == payload)
  }

  lemma {:induction false} RunCarries(cfg: Config, ops: seq<Op>, id: string)
    requires NotRemade(cfg, NEW_ENGINE, ops, id) && id in Run(cfg, NEW_ENGINE, ops).tasks
    ensures var s := Run(cfg, NEW_ENGINE, ops);
            Carries(s.log.history, id, s.tasks[id].workflowId, s.tasks[id].payload)
  {
    var before, op := ops[..|ops| - 1], ops[|ops| - 1];
    var s := Run(cfg, NEW_ENGINE, before);
    RunKeepsInv(cfg, before);
    var effect := Explain(cfg, s, op);
    if id in s.tasks {
      RunCarries(cfg, before, id);
    } else {
      HistoryAlwaysFits(cfg, before, id);
      NoStatesIff(s.log.history, id);
    }
    EffectCarries(cfg, s, Step(cfg, s, op), effect, id);
  }

  lemma EffectCarries(cfg: Config, s: EngineState, s': EngineState, effect: Effect, id: string)
    requires Explains(cfg, s, s', effect) && id in s'.tasks
    requires effect.Move? && effect.newState !in {Completed, Failed} ==> effect.entry.data == effect.t.payload
    requires if id in s.tasks then Carries(s.log.history, id, s.tasks[id].workflowId, s.tasks[id].payload)
             else forall i :: 0 <= i < |s.log.history| ==> s.log.history[i].taskId != id
    requires !(effect.Birth? && effect.t.id == id && id in s.tasks)
    ensures Carries(s'.log.history, id, s'.tasks[id].workflowId, s'.tasks[id].payload)
  {
    if effect.Move? && effect.t.id == id {
      assert effect.Moved().workflowId == effect.t.workflowId && effect.Moved().payload == effect.t.payload;
    }
  }

  /** A task with the given entries, the first of which is not final. */
  function Shape(cfg: Config, id: string, workflowId: string, payload: Bytes, path: seq<State>): Recovered
    requires path != []
  {
    var partition := PartitionOf(cfg, id);
    Recovered(workflowId, path[|path| - 1], payload, if partition.Success? then partition.value else 0,
              DispatchCount(path))
  }

  /** What the entries of one task rebuild. */
  ghost predicate Shaped(cfg: Config, r: Option<Recovered>, id: string, workflowId: string, payload: Bytes,
                         path: seq<State>) {
    && (r.Some? <==> path != [])
    && (r.Some? ==> r.value.attempts == DispatchCount(path))
    && (r.Some? && path[0] !in {Completed, Failed} ==> r.value == Shape(cfg, id, workflowId, payload, path))
  }

  lemma ShapedGrows(cfg: Config, r: Option<Recovered>, workflowId: string, payload: Bytes, path: seq<State>, e: Entry)
    requires Shaped(cfg, r, e.taskId, workflowId, payload, path)
    requires e.workflowId == workflowId && (e.state in {Completed, Failed} || e.data == payload)
    ensures var r' := if r.Some? then Advance(r.value, e.state) else First(cfg, e);
            Shaped(cfg, Some(r'), e.taskId, workflowId, payload, path + [e.state])
  {
    DispatchesGrow(path, e.state);
    if path != [] {
      assert (path + [e.state])[0] == path[0];
    } else {
      assert path + [e.state] == [e.state] && DispatchCount([]) == 0;
    }
  }

  lemma {:induction false} FoldOneShape(cfg: Config, es: seq<Entry>, id: string, workflowId: string, payload: Bytes)
    requires Carries(es, id, workflowId, payload)
    ensures Shaped(cfg, FoldOne(cfg, None, es, id), id, workflowId, payload, States(es, id))
  {
    if es != [] {
      var before, e := es[..|es| - 1], es[|es| - 1];
      assert forall i :: 0 <= i < |before| ==> before[i] == es[i];
      FoldOneShape(cfg, before, id, workflowId, payload);
      assert es == before + [e];
      StatesGrow(before, e, id);
      FoldOneSnoc(cfg, None, before, e, id);
      if e.taskId == id {
        ShapedGrows(cfg, FoldOne(cfg, None, before, id), workflowId, payload, States(before, id), e);
      }
    }
  }

  lemma {:induction false} DispatchesAdd(a: seq<State>, b: seq<State>)
    ensures DispatchCount(a + b) == DispatchCount(a) + DispatchCount(b)
  {
    if b == [] {
      assert a + b == a;
    } else {
      DispatchesAdd(a, b[..|b| - 1]);
      assert a + b == (a + b[..|b| - 1]) + [b[|b| - 1]];
      DispatchesGrow(a + b[..|b| - 1], b[|b| - 1]);
    }
  }

  lemma {:induction false} NoDispatch(path: seq<State>)
    ensures DispatchCount(path) == 0 <==> Dispatched !in path
  {
    if path != [] {
      NoDispatch(path[..|path| - 1]);
      assert path == path[..|path| - 1] + [path[|path| - 1]];
    }
  }

  /** Three running states in a row hold a dispatch. */
  lemma ThreeInARow(path: seq<State>, n: nat)
    requires ClosedForm(path) && n + 3 <= Running(path)
    ensures exists i :: n <= i < n + 3 && path[i] == Dispatched
  {
    var i := if n % 3 == 0 then n + 2 else if n % 3 == 1 then n + 1 else n;
    assert path[i] == Cycle(i);
  }

  lemma ShortWithoutDispatch(path: seq<State>, n: nat, m: nat)
    requires ClosedForm(path) && n < m <= |path| && forall i :: n <= i < m ==> path[i] != Dispatched
    ensures m - n < 3 || n + 3 > Running(path)
  {
    if n + 3 <= Running(path) {
      ThreeInARow(path, n);
    }
  }

  lemma CycleTurns(i: nat, j: nat)
    requires i < j < i + 3
    ensures Cycle(i) != Cycle(j)
  {
  }

  lemma GapTurns(path: seq<State>, n: nat, m: nat)
    requires ClosedForm(path) && 0 < n < m <= |path| && forall i :: n <= i < m ==> path[i] != Dispatched
    ensures path[m - 1] != path[n - 1]
  {
    ShortWithoutDispatch(path, n, m);
    assert path[n - 1] == Cycle(n - 1);
    if m <= Running(path) {
      assert path[m - 1] == Cycle(m - 1);
      CycleTurns(n - 1, m - 1);
    }
  }

  lemma GapAtStart(path: seq<State>, m: nat)
    requires ClosedForm(path) && 0 < m < |path| && forall i :: 0 <= i < m ==> path[i] != Dispatched
    ensures path[m] !in {Completed, Failed}
  {
    ShortWithoutDispatch(path, 0, m);
  }

  /** A stretch of a legal path without a dispatch ends elsewhere than it began; nothing completes right after it. */
  lemma GapInPath(path: seq<State>, n: nat, m: nat)
    requires LegalPath(path) && n < m <= |path| && forall i :: n <= i < m ==> path[i] != Dispatched
    ensures n > 0 ==> path[m - 1] != path[n - 1]
    ensures n == 0 && m < |path| ==> path[m] !in {Completed, Failed}
  {
    LegalPathIffClosedForm(path);
    if n > 0 {
      GapTurns(path, n, m);
    } else if m < |path| {
      GapAtStart(path, m);
    }
  }

  /** `path` without the stretch `gap` is `rest`; `later` tells whether anything follows the stretch. */
  ghost predicate Gapped(path: seq<State>, gap: seq<State>, rest: seq<State>, later: bool) {
    && DispatchCount(path) == DispatchCount(rest) + DispatchCount(gap)
    && (path != [] ==> path[0] == Pending)
    && (if gap == [] then rest == path else path != [])
    && (gap != [] && DispatchCount(gap) == 0 ==>
          && (rest != [] ==> rest[0] !in {Completed, Failed})
          && (later <==> rest != [] && rest[|rest| - 1] == path[|path| - 1]))
  }

  lemma GapAdds(pa: seq<State>, pg: seq<State>, pc: seq<State>)
    ensures DispatchCount(pa + pg + pc) == DispatchCount(pa + pc) + DispatchCount(pg)
  {
    DispatchesAdd(pa, pc);
    DispatchesAdd(pa + pg, pc);
    DispatchesAdd(pa, pg);
  }

  lemma QuietGap(path: seq<State>, n: nat, m: nat)
    requires LegalPath(path) && n < m <= |path| && DispatchCount(path[n..m]) == 0
    ensures n > 0 ==> path[m - 1] != path[n - 1]
    ensures n == 0 && m < |path| ==> path[m] !in {Completed, Failed}
  {
    NoDispatch(path[n..m]);
    forall i | n <= i < m ensures path[i] != Dispatched {
      assert path[n..m][i - n] == path[i];
    }
    GapInPath(path, n, m);
  }

  lemma StartsPending(path: seq<State>)
    requires LegalPath(path)
    ensures path[0] == Pending
  {
    LegalPathIffClosedForm(path);
    assert path[0] == Cycle(0);
  }

  lemma QuietGapShows(path: seq<State>, pa: seq<State>, pg: seq<State>, pc: seq<State>)
    requires path == pa + pg + pc && LegalPath(path) && pg != [] && DispatchCount(pg) == 0
    ensures pa == [] && pc != [] ==> pc[0] !in {Completed, Failed}
    ensures pa != [] ==> pa[0] == Pending && pg[|pg| - 1] != pa[|pa| - 1]
  {
    var n, m := |pa|, |pa| + |pg|;
    assert path[n..m] == pg;
    QuietGap(path, n, m);
    StartsPending(path);
    assert pc != [] ==> path[m] == pc[0];
    assert path[m - 1] == pg[|pg| - 1];
    assert pa != [] ==> path[n - 1] == pa[n - 1] && path[0] == pa[0];
  }

  lemma Ends(pa: seq<State>, pg: seq<State>, pc: seq<State>)
    requires pg != [] && (pa != [] ==> pg[|pg| - 1] != pa[|pa| - 1])
    ensures pc != [] <==> pa + pc != [] && (pa + pc)[|pa + pc| - 1] == (pa + pg + pc)[|pa + pg + pc| - 1]
  {
  }

  lemma LegalIsGapped(pa: seq<State>, pg: seq<State>, pc: seq<State>)
    requires pa + pg + pc != [] ==> LegalPath(pa + pg + pc)
    ensures Gapped(pa + pg + pc, pg, pa + pc, pc != [])
  {
    GapAdds(pa, pg, pc);
    if pa + pg + pc != [] {
      StartsPending(pa + pg + pc);
    }
    if pg == [] {
      assert pa + pg + pc == pa + pc;
    } else if DispatchCount(pg) == 0 {
      QuietGapShows(pa + pg + pc, pa, pg, pc);
      Ends(pa, pg, pc);
    }
  }

  lemma GapExactPath(cfg: Config, id: string, workflowId: string, payload: Bytes, path: seq<State>, gap: seq<State>,
                     rest: seq<State>, later: bool, part: Option<Recovered>, whole: Option<Recovered>)
    requires Shaped(cfg, part, id, workflowId, payload, rest)
    requires Shaped(cfg, whole, id, workflowId, payload, path)
    requires Gapped(path, gap, rest, later)
    ensures part == whole <==> gap == [] || (DispatchCount(gap) == 0 && later)
  {
  }

  lemma CarriesPart(a: seq<Entry>, g: seq<Entry>, c: seq<Entry>, id: string, workflowId: string, payload: Bytes)
    requires Carries(a + g + c, id, workflowId, payload)
    ensures Carries(a + c, id, workflowId, payload)
  {
    forall i | 0 <= i < |a + c| && (a + c)[i].taskId == id
      ensures (a + c)[i].workflowId == workflowId
      ensures (a + c)[i].state in {Completed, Failed} || (a + c)[i].data == payload
    {
      assert (a + c)[i] == if i < |a| then (a + g + c)[i] else (a + g + c)[|g| + i];
    }
  }

  /**
   * Leaving the entries g out gives the right task exactly when they are not about it, or they do not dispatch it and
   * it has entries after them.
   */
  lemma GapExactOne(cfg: Config, a: seq<Entry>, g: seq<Entry>, c: seq<Entry>, id: string,
                    workflowId: string, payload: Bytes)
    requires Carries(a + g + c, id, workflowId, payload)
    requires States(a + g + c, id) != [] ==> LegalPath(States(a + g + c, id))
    ensures FoldOne(cfg, None, a + c, id) == FoldOne(cfg, None, a + g + c, id) <==>
            States(g, id) == [] || (DispatchCount(States(g, id)) == 0 && States(c, id) != [])
  {
    var pa, pg, pc := States(a, id), States(g, id), States(c, id);
    StatesConcat(a, c, id);
    StatesConcat(a + g, c, id);
    StatesConcat(a, g, id);
    CarriesPart(a, g, c, id, workflowId, payload);
    FoldOneShape(cfg, a + c, id, workflowId, payload);
    FoldOneShape(cfg, a + g + c, id, workflowId, payload);
    LegalIsGapped(pa, pg, pc);
    GapExactPath(cfg, id, workflowId, payload, pa + pg + pc, pg, pa + pc, pc != [],
                 FoldOne(cfg, None, a + c, id), FoldOne(cfg, None, a + g + c, id));
  }

  // ---------------------------------------------------------------- the whole engine

  /** Every task logged from m to `from` is not dispatched there and is logged again later. */
  ghost predicate Harmless(h: seq<Entry>, m: nat, from: nat)
    requires m <= from <= |h|
  {
    forall i :: m <= i < from ==>
      h[i].state != Dispatched && LoggedFrom(h, from, h[i].taskId)
  }

  /** Leaving g out before c does not show in this task. */
  ghost predicate Spared(g: seq<Entry>, c: seq<Entry>, id: string) {
    States(g, id) == [] || (DispatchCount(States(g, id)) == 0 && States(c, id) != [])
  }

  lemma HarmlessSpares(a: seq<Entry>, g: seq<Entry>, c: seq<Entry>, id: string)
    requires Harmless(a + g + c, |a|, |a + g|)
    ensures Spared(g, c, id)
  {
    var h := a + g + c;
    DispatchesAreCounted(g, id);
    NoStatesIff(g, id);
    if i :| 0 <= i < |g| && g[i].taskId == id {
      assert h[|a| + i] == g[i];
      var j :| |a + g| <= j < |h| && h[j].taskId == h[|a| + i].taskId;
      NoStatesIff(c, id);
      assert c[j - |a + g|] == h[j];
      DispatchesPositiveIff(g, id);
      assert forall k :: 0 <= k < |g| ==> g[k] == h[|a| + k];
    }
  }

  lemma HarmNotSpared(a: seq<Entry>, g: seq<Entry>, c: seq<Entry>) returns (id: string)
    requires !Harmless(a + g + c, |a|, |a + g|)
    ensures !Spared(g, c, id)
  {
    var h := a + g + c;
    var i :| |a| <= i < |a + g| &&
             !(h[i].state != Dispatched && LoggedFrom(h, |a + g|, h[i].taskId));
    id := h[i].taskId;
    assert g[i - |a|] == h[i];
    DispatchesAreCounted(g, id);
    NoStatesIff(g, id);
    NoStatesIff(c, id);
    DispatchesPositiveIff(g, id);
    assert forall k :: 0 <= k < |c| ==> c[k] == h[|a + g| + k];
  }

  lemma HarmlessIff(a: seq<Entry>, g: seq<Entry>, c: seq<Entry>)
    ensures Harmless(a + g + c, |a|, |a + g|) <==> forall id :: Spared(g, c, id)
  {
    if Harmless(a + g + c, |a|, |a + g|) {
      forall id ensures Spared(g, c, id) {
        HarmlessSpares(a, g, c, id);
      }
    } else {
      var id := HarmNotSpared(a, g, c);
    }
  }

  lemma SameWithoutIff(cfg: Config, ops: seq<Op>, h: seq<Entry>, a: seq<Entry>, g: seq<Entry>, c: seq<Entry>)
    requires IdsFresh(cfg, NEW_ENGINE, ops) && h == Run(cfg, NEW_ENGINE, ops).log.history && h == a + g + c
    ensures Recover(cfg, a + c).tasks == Recover(cfg, h).tasks <==> Harmless(h, |a|, |a + g|)
  {
    HarmlessIff(a, g, c);
    var part, whole := Recover(cfg, a + c), Recover(cfg, h);
    forall id
      ensures Lookup(part, id) == Lookup(whole, id) <==> Spared(g, c, id)
    {
      GapOfRun(cfg, ops, a, g, c, id);
    }
    SameTasksIff(part, whole);
  }

  /** A run's log without a stretch rebuilds the right tasks exactly when leaving the stretch out is harmless. */
  lemma GapExactIff(cfg: Config, ops: seq<Op>, h: seq<Entry>, m: nat, from: nat)
    requires IdsFresh(cfg, NEW_ENGINE, ops) && h == Run(cfg, NEW_ENGINE, ops).log.history && m <= from <= |h|
    ensures Recover(cfg, h[..m] + h[from..]).tasks == Recover(cfg, h).tasks <==> Harmless(h, m, from)
  {
    assert h == h[..m] + h[m..from] + h[from..];
    assert |h[..m]| == m && |h[..m] + h[m..from]| == from;
    SameWithoutIff(cfg, ops, h, h[..m], h[m..from], h[from..]);
  }

  lemma SameTasksIff(x: Snapshot, y: Snapshot)
    ensures x.tasks == y.tasks <==> forall id :: Lookup(x, id) == Lookup(y, id)
  {
    if forall id :: Lookup(x, id) == Lookup(y, id) {
      SameTasks(x, y);
    } else {
      var id :| Lookup(x, id) != Lookup(y, id);
    }
  }

  lemma SameTasks(x: Snapshot, y: Snapshot)
    requires forall id :: Lookup(x, id) == Lookup(y, id)
    ensures x.tasks == y.tasks
  {
    forall id
      ensures id in x.tasks <==> id in y.tasks
      ensures id in x.tasks && id in y.tasks ==> x.tasks[id] == y.tasks[id]
    {
      assert Lookup(x, id) == Lookup(y, id);
    }
  }

  lemma GapOfRun(cfg: Config, ops: seq<Op>, a: seq<Entry>, g: seq<Entry>, c: seq<Entry>, id: string)
    requires IdsFresh(cfg, NEW_ENGINE, ops) && a + g + c == Run(cfg, NEW_ENGINE, ops).log.history
    ensures Lookup(Recover(cfg, a + c), id) == Lookup(Recover(cfg, a + g + c), id) <==> Spared(g, c, id)
  {
    var s := Run(cfg, NEW_ENGINE, ops);
    FreshRemakesNone(cfg, NEW_ENGINE, ops, id);
    HistoryAlwaysFits(cfg, ops, id);
    LookupIsLocal(cfg, NOTHING, a + c, id);
    LookupIsLocal(cfg, NOTHING, a + g + c, id);
    if id in s.tasks {
      RunCarries(cfg, ops, id);
      GapExactOne(cfg, a, g, c, id, s.tasks[id].workflowId, s.tasks[id].payload);
    } else {
      NoStatesIff(s.log.history, id);
      GapExactOne(cfg, a, g, c, id, "", "");
    }
  }

  lemma SetupOf(cfg: Config, earlier: EngineState, latest: EngineState, upTo: nat)
    requires Inv(cfg, earlier) && Inv(cfg, latest) && earlier.log.history <= latest.log.history
    requires Recover(cfg, earlier.log.history) == SnapshotOf(earlier)
    requires upTo <= latest.log.sequence
    ensures var h, m := latest.log.history, earlier.counter;
            && m <= |h| && |latest.log.entries| <= |h|
            && CheckpointAt(latest.log, upTo).1 == Success(())
            && Uncommitted(CheckpointAt(latest.log, upTo).0) == h[ReadFrom(latest.log, upTo)..]
            && SnapshotOf(earlier) == Recover(cfg, h[..m])
  {
    ReplayAfterCheckpoint(latest.log, upTo);
    assert earlier.log.history == latest.log.history[..earlier.counter];
  }

  lemma GapFromIff(cfg: Config, ops: seq<Op>, h: seq<Entry>, m: nat, from: nat)
    requires IdsFresh(cfg, NEW_ENGINE, ops) && h == Run(cfg, NEW_ENGINE, ops).log.history && m < from <= |h|
    ensures var got := Fold(cfg, Recover(cfg, h[..m]), h[from..]);
            && (got.tasks == Recover(cfg, h).tasks <==> Harmless(h, m, from))
            && (got == Recover(cfg, h) <==> Harmless(h, m, from) && KeepsOrder(h, m, from))
  {
    FoldConcat(cfg, NOTHING, h[..m], h[from..]);
    GapExactIff(cfg, ops, h, m, from);
    if Harmless(h, m, from) {
      RunOneWorkflow(cfg, ops);
      AgainMeansSameStarts(h, m, from);
      ListsKeptIff(h, m, from);
      SameListsIff(cfg, Without(h, m, from), h);
    }
  }

  lemma EntriesNameWorkflow(cfg: Config, ops: seq<Op>, i: nat, j: nat)
    requires IdsFresh(cfg, NEW_ENGINE, ops)
    requires var h := Run(cfg, NEW_ENGINE, ops).log.history; i < j < |h| && h[i].taskId == h[j].taskId
    ensures var h := Run(cfg, NEW_ENGINE, ops).log.history; h[i].workflowId == h[j].workflowId
  {
    var s := Run(cfg, NEW_ENGINE, ops);
    var id := s.log.history[i].taskId;
    FreshRemakesNone(cfg, NEW_ENGINE, ops, id);
    HistoryAlwaysFits(cfg, ops, id);
    NoStatesIff(s.log.history, id);
    RunCarries(cfg, ops, id);
  }

  lemma RunOneWorkflow(cfg: Config, ops: seq<Op>)
    requires IdsFresh(cfg, NEW_ENGINE, ops)
    ensures OneWorkflow(Run(cfg, NEW_ENGINE, ops).log.history)
  {
    var h := Run(cfg, NEW_ENGINE, ops).log.history;
    forall i, j | 0 <= i < j < |h| && h[i].taskId == h[j].taskId
      ensures h[i].workflowId == h[j].workflowId
    {
      EntriesNameWorkflow(cfg, ops, i, j);
    }
  }

  lemma SameIndexIff(a: map<string, seq<string>>, b: map<string, seq<string>>)
    requires forall w :: w in a ==> a[w] != []
    requires forall w :: w in b ==> b[w] != []
    ensures a == b <==> forall w :: TasksOf(a, w) == TasksOf(b, w)
  {
    if forall w :: TasksOf(a, w) == TasksOf(b, w) {
      forall w
        ensures w in a <==> w in b
        ensures w in a && w in b ==> a[w] == b[w]
      {
        assert TasksOf(a, w) == TasksOf(b, w);
      }
    }
  }

  lemma SameListsIff(cfg: Config, x: seq<Entry>, y: seq<Entry>)
    ensures Recover(cfg, x).workflowTasks == Recover(cfg, y).workflowTasks <==>
            forall w :: CreatedIn(x, w) == CreatedIn(y, w)
  {
    var a, b := Recover(cfg, x).workflowTasks, Recover(cfg, y).workflowTasks;
    ListsAreNotEmpty(cfg, x);
    ListsAreNotEmpty(cfg, y);
    SameIndexIff(a, b);
    forall w ensures TasksOf(a, w) == TasksOf(b, w) <==> CreatedIn(x, w) == CreatedIn(y, w) {
      FoldListsCreations(cfg, x, w);
      FoldListsCreations(cfg, y, w);
    }
    if a != b {
      var w :| TasksOf(a, w) != TasksOf(b, w);
      assert CreatedIn(x, w) != CreatedIn(y, w);
    }
  }

  lemma {:induction false} ListsAreNotEmpty(cfg: Config, es: seq<Entry>)
    ensures forall w :: w in Recover(cfg, es).workflowTasks ==> Recover(cfg, es).workflowTasks[w] != []
  {
    if es != [] {
      ListsAreNotEmpty(cfg, es[..|es| - 1]);
      assert Recover(cfg, es) == Apply(cfg, Recover(cfg, es[..|es| - 1]), es[|es| - 1]);
    }
  }

  /**
   * Take the engine as it was `earlier`, checkpoint the log of the `latest` at a number it accepts, and apply what
   * Replay returns, also of a log that was closed over entries.
   *
   * If Replay reads from a position before the snapshot, that gives the engine as it is now exactly when no
   * DISPATCHED entry lies in between. If it reads from a later one, that gives the right tasks exactly when every
   * task logged in between is not dispatched there and is logged again later; and the whole engine exactly when, in
   * addition, each task created in between is logged again before any task of its workflow that was created after it.
   */
  ghost predicate RecoversExactly(cfg: Config, earlier: EngineState, latest: EngineState, upTo: nat)
    requires earlier.counter <= |latest.log.history| && |latest.log.entries| <= |latest.log.history|
  {
    var log := CheckpointAt(latest.log, upTo).0;
    var h, m, from := latest.log.history, earlier.counter, ReadFrom(latest.log, upTo);
    var got := Fold(cfg, SnapshotOf(earlier), Uncommitted(log));
    if from <= m then
      got == SnapshotOf(latest) <==> forall i :: from <= i < m ==> h[i].state != Dispatched
    else
      && (got.tasks == SnapshotOf(latest).tasks <==> Harmless(h, m, from))
      && (got == SnapshotOf(latest) <==> Harmless(h, m, from) && KeepsOrder(h, m, from))
  }

  lemma CheckpointOf(cfg: Config, ops: seq<Op>, earlier: EngineState, latest: EngineState, upTo: nat)
    requires IdsFresh(cfg, NEW_ENGINE, ops) && latest.log.history == Run(cfg, NEW_ENGINE, ops).log.history
    requires Inv(cfg, earlier) && Inv(cfg, latest) && earlier.log.history <= latest.log.history
    requires Recover(cfg, earlier.log.history) == SnapshotOf(earlier)
    requires Recover(cfg, latest.log.history) == SnapshotOf(latest)
    requires upTo <= latest.log.sequence
    ensures earlier.counter <= |latest.log.history| && RecoversExactly(cfg, earlier, latest, upTo)
  {
    SetupOf(cfg, earlier, latest, upTo);
    var h, m, from := latest.log.history, earlier.counter, ReadFrom(latest.log, upTo);
    if from <= m {
      RereadFromIff(cfg, h, m, from);
    } else {
      GapFromIff(cfg, ops, h, m, from);
    }
  }

  /** So it is for any two points of any run without a reused id. */
  lemma {:induction false} CheckpointRecoversIff(cfg: Config, ops: seq<Op>, k: nat, upTo: nat)
    requires IdsFresh(cfg, NEW_ENGINE, ops) && k <= |ops|
    requires upTo <= Run(cfg, NEW_ENGINE, ops).log.sequence
    ensures var earlier, latest := Run(cfg, NEW_ENGINE, ops[..k]), Run(cfg, NEW_ENGINE, ops);
            && CheckpointAt(latest.log, upTo).1 == Success(())
            && earlier.counter <= |latest.log.history| && |latest.log.entries| <= |latest.log.history|
            && RecoversExactly(cfg, earlier, latest, upTo)
  {
    FreshPrefix(cfg, ops, k);
    RunKeepsInv(cfg, ops[..k]);
    RunKeepsInv(cfg, ops);
    RecoveredWhenFresh(cfg, ops[..k]);
    RecoveredWhenFresh(cfg, ops);
    CheckpointOf(cfg, ops, Run(cfg, NEW_ENGINE, ops[..k]), Run(cfg, NEW_ENGINE, ops), upTo);
  }
}
