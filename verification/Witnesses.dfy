/** Runs that reach the states in which the source does not do what it promises. */
module Witnesses {
  import opened Results
  import opened TaskState
  import opened Tasks
  import opened Wal
  import opened Partition
  import opened EngineSpec
  import opened Interleaving
  import opened Recovery
  import opened History
  import opened Checkpoints
  import opened Gateway
  import opened Outcomes
  import TaskId

  /** Storage that refuses. */
  const DOWN := Env(0, 0, 0, false)

  /** The path of a task that waits for its worker. */
  const TO_WORKER := [Pending, Scheduled, Dispatched]

  function TheTask(): string {
    TaskId.Make("w", 0)
  }

  lemma ToWorkerIsLegal()
    ensures LegalPath(TO_WORKER) && LegalPath(TO_WORKER + [Completed])
  {
    var p, q := TO_WORKER, TO_WORKER + [Completed];
    assert p[..2] == [Pending, Scheduled] && p[..2][..1] == [Pending];
    assert LegalPath([Pending]) && LegalPath(p[..2]) && LegalPath(p);
    assert q[..3] == p;
  }

  // ---------------------------------------------------------------- a reused id

  lemma CreateOverwrites(cfg: Config, ops: seq<Op>, create: Op)
    requires create == Create("w", "n", "", CALM) && cfg.count > 0
    requires IdsFresh(cfg, NEW_ENGINE, ops) && TheTask() in Run(cfg, NEW_ENGINE, ops).tasks
    ensures !IdsFresh(cfg, NEW_ENGINE, ops + [create])
    ensures var s := Run(cfg, NEW_ENGINE, ops + [create]);
            TheTask() in s.tasks && s.tasks[TheTask()].state == Pending
  {
    TaskId.MakeIsNotEmpty("w", 0);
    assert (ops + [create])[..|ops|] == ops;
  }

  /** A completed task is overwritten by a create; its answer is no longer final, and the log no longer enough. */
  lemma {:induction false} ReuseUndoesCompletion(cfg: Config)
    requires cfg.count > 0
    ensures exists ops, create, id ::
              var s, s' := Run(cfg, NEW_ENGINE, ops), Run(cfg, NEW_ENGINE, ops + [create]);
              && IdsFresh(cfg, NEW_ENGINE, ops) && !IdsFresh(cfg, NEW_ENGINE, ops + [create])
              && id in s.tasks && s.tasks[id].state == Completed
              && id in s'.tasks && s'.tasks[id].state == Pending
              && Recover(cfg, s'.log.history) != SnapshotOf(s')
  {
    ToWorkerIsLegal();
    var path, create := TO_WORKER + [Completed], Create("w", "n", "", CALM);
    var ops := Drive(path);
    DriveAlong(cfg, path);
    CreateOverwrites(cfg, ops, create);
    RecoveryExactIff(cfg, ops + [create]);
    assert Run(cfg, NEW_ENGINE, ops).tasks[TheTask()].state == Completed;
  }

  // ---------------------------------------------------------------- an old checkpoint

  lemma StepHoldsAll(cfg: Config, s: EngineState, op: Op)
    requires !op.Close? && s.log.entries == s.log.history
    ensures var log := Step(cfg, s, op).log; log.entries == log.history
  {
  }

  lemma {:induction false} NeverClosedHoldsAll(cfg: Config, ops: seq<Op>)
    requires forall i :: 0 <= i < |ops| ==> !ops[i].Close?
    ensures var log := Run(cfg, NEW_ENGINE, ops).log; log.entries == log.history
  {
    if ops != [] {
      NeverClosedHoldsAll(cfg, ops[..|ops| - 1]);
      StepHoldsAll(cfg, Run(cfg, NEW_ENGINE, ops[..|ops| - 1]), ops[|ops| - 1]);
    }
  }

  lemma {:induction false} DriveNeverCloses(path: seq<State>)
    requires path != []
    ensures forall i :: 0 <= i < |Drive(path)| ==> !Drive(path)[i].Close?
  {
    if |path| > 1 {
      DriveNeverCloses(path[..|path| - 1]);
    }
  }

  lemma DispatchInOverlap(cfg: Config, s: EngineState, i: nat)
    requires s.counter == |s.log.history| && s.log.entries == s.log.history
    requires i < |s.log.history| && s.log.history[i].state == Dispatched
    requires RecoversExactly(cfg, s, s, 0)
    ensures Fold(cfg, SnapshotOf(s), Uncommitted(CheckpointAt(s.log, 0).0)) != SnapshotOf(s)
  {
    assert ReadFrom(s.log, 0) == 0;
  }

  lemma CheckpointOfItself(cfg: Config, ops: seq<Op>)
    requires IdsFresh(cfg, NEW_ENGINE, ops)
    ensures var s := Run(cfg, NEW_ENGINE, ops);
            && CheckpointAt(s.log, 0).1 == Success(())
            && s.counter <= |s.log.history| && |s.log.entries| <= |s.log.history|
            && RecoversExactly(cfg, s, s, 0)
  {
    assert ops[..|ops|] == ops;
    CheckpointRecoversIff(cfg, ops, |ops|, 0);
  }

  /** A snapshot of a dispatched task, brought up to date from checkpoint 0, is not the engine it was taken of. */
  lemma {:induction false} OldCheckpointCountsTwice(cfg: Config)
    requires cfg.count > 0
    ensures exists ops ::
              var s := Run(cfg, NEW_ENGINE, ops);
              && IdsFresh(cfg, NEW_ENGINE, ops)
              && CheckpointAt(s.log, 0).1 == Success(())
              && Fold(cfg, SnapshotOf(s), Uncommitted(CheckpointAt(s.log, 0).0)) != SnapshotOf(s)
  {
    ToWorkerIsLegal();
    var ops := Drive(TO_WORKER);
    DriveAlong(cfg, TO_WORKER);
    DriveNeverCloses(TO_WORKER);
    NeverClosedHoldsAll(cfg, ops);
    RunKeepsInv(cfg, ops);
    CheckpointOfItself(cfg, ops);
    OldCheckpointOf(cfg, Run(cfg, NEW_ENGINE, ops), TheTask());
  }

  lemma OldCheckpointOf(cfg: Config, s: EngineState, id: string)
    requires Inv(cfg, s) && s.log.entries == s.log.history && States(s.log.history, id) == TO_WORKER
    requires RecoversExactly(cfg, s, s, 0)
    ensures Fold(cfg, SnapshotOf(s), Uncommitted(CheckpointAt(s.log, 0).0)) != SnapshotOf(s)
  {
    assert TO_WORKER[2] == Dispatched;
    var i := DispatchedAt(s.log.history, id);
    DispatchInOverlap(cfg, s, i);
  }

  lemma {:induction false} DispatchedAt(es: seq<Entry>, id: string) returns (i: nat)
    requires Dispatched in States(es, id)
    ensures i < |es| && es[i].state == Dispatched
  {
    var before, e := es[..|es| - 1], es[|es| - 1];
    if e.state == Dispatched {
      i := |es| - 1;
    } else {
      i := DispatchedAt(before, id);
    }
  }

  // ---------------------------------------------------------------- answers with a remainder

  lemma {:induction false} NoCreateRemakesNone(cfg: Config, s: EngineState, ops: seq<Op>, id: string)
    requires forall i :: 0 <= i < |ops| ==> !ops[i].Create?
    ensures NotRemade(cfg, s, ops, id)
  {
    if ops != [] {
      NoCreateRemakesNone(cfg, s, ops[..|ops| - 1], id);
    }
  }

  lemma AtWorker(cfg: Config)
    requires cfg.count > 0
    ensures var s := Run(cfg, NEW_ENGINE, Drive(TO_WORKER));
            Inv(cfg, s) && TheTask() in s.tasks && s.tasks[TheTask()].state == Dispatched
  {
    ToWorkerIsLegal();
    DriveAlong(cfg, TO_WORKER);
    RunKeepsInv(cfg, Drive(TO_WORKER));
  }

  lemma SecondDecides(refused: Op, accepted: Op, id: string)
    requires Reports(refused, id) && !refused.env.storageUp && Reports(accepted, id) && accepted.env.storageUp
    ensures var reports := [refused, accepted];
            && Decisive(reports, id) == 1
            && (refused.Fail? ==> forall e :: LeftoverError(reports[..1], id, e) == refused.message)
            && (refused.Complete? ==> forall e :: LeftoverResult(reports[..1], id, e) == refused.result)
  {
    var reports := [refused, accepted];
    assert reports[..1] == [refused] && [refused][..0] == [];
  }

  lemma ErrorStays(cfg: Config, s: EngineState, id: string)
    requires Inv(cfg, s) && id in s.tasks && s.tasks[id].state == Dispatched
    ensures Tells(StatusOf(Run(cfg, s, [Fail(id, "boom", DOWN), Complete(id, "out", CALM)]), id), true, "out", "boom")
  {
    var reports := [Fail(id, "boom", DOWN), Complete(id, "out", CALM)];
    NoCreateRemakesNone(cfg, s, reports, id);
    SecondDecides(reports[0], reports[1], id);
    CompletedAnswerIsCleanIff(cfg, s, reports, id);
  }

  lemma OutputStays(cfg: Config, s: EngineState, id: string)
    requires Inv(cfg, s) && id in s.tasks && s.tasks[id].state == Dispatched
    ensures Tells(StatusOf(Run(cfg, s, [Complete(id, "out", DOWN), Fail(id, "boom", CALM)]), id), false, "out", "boom")
  {
    var reports := [Complete(id, "out", DOWN), Fail(id, "boom", CALM)];
    NoCreateRemakesNone(cfg, s, reports, id);
    SecondDecides(reports[0], reports[1], id);
    FailedAnswerIsCleanIff(cfg, s, reports, id);
  }

  /** A refused failure and a success: the answer says COMPLETED and tells the error. */
  lemma {:induction false} CompletedWithError(cfg: Config)
    requires cfg.count > 0
    ensures exists ops, id :: Tells(StatusOf(Run(cfg, NEW_ENGINE, ops), id), true, "out", "boom")
  {
    AtWorker(cfg);
    ErrorStays(cfg, Run(cfg, NEW_ENGINE, Drive(TO_WORKER)), TheTask());
    RunConcat(cfg, NEW_ENGINE, Drive(TO_WORKER), [Fail(TheTask(), "boom", DOWN), Complete(TheTask(), "out", CALM)]);
  }

  /** A refused success and a failure: the answer says FAILED and tells the result. */
  lemma {:induction false} FailedWithOutput(cfg: Config)
    requires cfg.count > 0
    ensures exists ops, id :: Tells(StatusOf(Run(cfg, NEW_ENGINE, ops), id), false, "out", "boom")
  {
    AtWorker(cfg);
    OutputStays(cfg, Run(cfg, NEW_ENGINE, Drive(TO_WORKER)), TheTask());
    RunConcat(cfg, NEW_ENGINE, Drive(TO_WORKER), [Complete(TheTask(), "out", DOWN), Fail(TheTask(), "boom", CALM)]);
  }

  // ---------------------------------------------------------------- an outcome that is not in the log

  lemma ResultRefused(cfg: Config, s: EngineState, id: string, result: Bytes)
    requires Inv(cfg, s) && id in s.tasks && s.tasks[id].state == Dispatched
    ensures var s' := Step(cfg, s, Complete(id, result, DOWN));
            Inv(cfg, s') && s'.tasks == s.tasks[id := s.tasks[id].(result := result)]
  {
    assert TaskInv(cfg, id, s.tasks[id]);
    StepKeepsInv(cfg, s, Complete(id, result, DOWN));
  }

  lemma CompletedDirectly(cfg: Config, s: EngineState, id: string)
    requires Inv(cfg, s) && id in s.tasks && s.tasks[id].state == Dispatched
    requires s.tasks[id].result != s.tasks[id].payload
    ensures var s' := Step(cfg, s, Transition(id, Completed, CALM));
            id in s'.tasks && s'.tasks[id].state == Completed && !OutcomeLogged(s', id)
  {
    assert TaskInv(cfg, id, s.tasks[id]);
    var effect := ExplainRecord(cfg, s, id, s.tasks[id], Completed, s.tasks[id].payload, CALM);
    LastDataGrows(s.log.history, effect.entry, id);
    MovedOutcome(effect);
  }

  lemma MovedOutcome(effect: Effect)
    requires effect.Move? && Allowed(effect.t.state, effect.newState)
    ensures effect.Moved().state == effect.newState && effect.Moved().result == effect.t.result
  {
  }

  /** A refused result and a direct completion: the task holds a result that the log does not. */
  lemma {:induction false} CompletedPastTheLog(cfg: Config)
    requires cfg.count > 0
    ensures exists ops, id ::
              var s := Run(cfg, NEW_ENGINE, ops);
              id in s.tasks && s.tasks[id].state == Completed && !OutcomeLogged(s, id)
  {
    var id, s := TheTask(), Run(cfg, NEW_ENGINE, Drive(TO_WORKER));
    AtWorker(cfg);
    var result := s.tasks[id].payload + "!";
    ResultRefused(cfg, s, id, result);
    CompletedDirectly(cfg, Step(cfg, s, Complete(id, result, DOWN)), id);
    TwoCalls(cfg, s, Complete(id, result, DOWN), Transition(id, Completed, CALM));
    RunConcat(cfg, NEW_ENGINE, Drive(TO_WORKER), [Complete(id, result, DOWN), Transition(id, Completed, CALM)]);
  }

  // ---------------------------------------------------------------- a late copy

  /** GetTasksByState(PENDING) can answer a task that is SCHEDULED. */
  lemma {:induction false} LateCopyInOtherState(cfg: Config)
    requires cfg.count > 0
    ensures exists ops, others, id ::
              var s := Run(cfg, NEW_ENGINE, ops);
              && id in s.tasks && s.tasks[id].state == Pending
              && Follow(cfg, s, others, id).state == Scheduled
  {
    var id, s, move := TheTask(), Run(cfg, NEW_ENGINE, Drive([Pending])), Transition(TheTask(), Scheduled, CALM);
    DriveFirst(cfg);
    RunKeepsInv(cfg, Drive([Pending]));
    FollowOneCall(cfg, s, move, id);
    DriveNext(cfg, s, id, [Pending], Scheduled);
    assert Follow(cfg, s, [move], id).state == Scheduled;
  }
}
