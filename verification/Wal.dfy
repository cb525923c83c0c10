/** The in-memory write-ahead log (internal/wal/wal.go). */
module Wal {
  import opened Results
  import opened TaskState

  datatype Entry = Entry(
    sequence: nat,
    taskId: string,
    workflowId: string,
    state: State,
    data: Bytes,
    timestamp: int,
    committed: bool)

  /** What the engine hands to Append: number and time are filled in by the log. */
  function Draft(taskId: string, workflowId: string, state: State, data: Bytes): Entry {
    Entry(0, taskId, workflowId, state, data, 0, false)
  }

  /**
   * The log as a value. `entries` is what the log holds now; `history` is every entry ever appended,
   * an auxiliary variable that Close does not clear.
   */
  datatype LogState = LogState(entries: seq<Entry>, sequence: nat, committed: nat, history: seq<Entry>)

  const EMPTY_LOG := LogState([], 0, 0, [])

  datatype Appended = Appended(log: LogState, answer: Result<nat>)

  function AppendTo(log: LogState, draft: Entry, now: int): Appended {
    if draft.taskId == "" then Appended(log, Failure(MissingTaskId))
    else if draft.workflowId == "" then Appended(log, Failure(MissingWorkflowId))
    else if draft.state == Other("") then Appended(log, Failure(MissingState))
    else
      var number := log.sequence + 1;
      var entry := draft.(sequence := number, timestamp := now, committed := false);
      Appended(LogState(log.entries + [entry], number, log.committed, log.history + [entry]), Success(number))
  }

  function CheckpointAt(log: LogState, upTo: nat): (LogState, Result<()>) {
    if upTo > log.sequence then (log, Failure(CheckpointBeyondLatest))
    else (log.(committed := upTo), Success(()))
  }

  function Closed(log: LogState): LogState {
    log.(entries := [])
  }

  /** Replay cuts by position: it drops the first `committed` entries held. */
  function Uncommitted(log: LogState): seq<Entry> {
    if log.committed >= |log.entries| then [] else log.entries[log.committed..]
  }

  datatype WalOp =
    | DoAppend(draft: Entry, now: int)
    | DoCheckpoint(upTo: nat)
    | DoClose

  function LogStep(log: LogState, op: WalOp): LogState {
    match op
    case DoAppend(draft, now) => AppendTo(log, draft, now).log
    case DoCheckpoint(upTo) => CheckpointAt(log, upTo).0
    case DoClose => Closed(log)
  }

  function LogRun(log: LogState, ops: seq<WalOp>): LogState {
    if ops == [] then log else LogStep(LogRun(log, ops[..|ops| - 1]), ops[|ops| - 1])
  }

  // ---------------------------------------------------------------- what every run keeps

  /** Numbers are 1, 2, 3, ... over the whole history, and the log holds a suffix of it. */
  ghost predicate LogInv(log: LogState) {
    && log.sequence == |log.history|
    && |log.entries| <= |log.history|
    && log.entries == log.history[|log.history| - |log.entries|..]
    && log.committed <= log.sequence
    && forall i :: 0 <= i < |log.history| ==> log.history[i].sequence == i + 1
  }

  lemma StepKeepsLogInv(log: LogState, op: WalOp)
    requires LogInv(log)
    ensures LogInv(LogStep(log, op))
    ensures log.history <= LogStep(log, op).history
  {
    if op.DoAppend? {
      var log' := AppendTo(log, op.draft, op.now).log;
      if log' != log {
        var cut := |log.history| - |log.entries|;
        assert log'.history[cut..] == log.history[cut..] + log'.history[|log.history|..];
      }
    }
  }

  lemma {:induction false} RunKeepsLogInv(log: LogState, ops: seq<WalOp>)
    requires LogInv(log)
    ensures LogInv(LogRun(log, ops)) && log.history <= LogRun(log, ops).history
  {
    if ops != [] {
      RunKeepsLogInv(log, ops[..|ops| - 1]);
      StepKeepsLogInv(LogRun(log, ops[..|ops| - 1]), ops[|ops| - 1]);
    }
  }

  // ---------------------------------------------------------------- what was written

  /** Append takes the entry: it names a task, a workflow and a state. */
  predicate Acceptable(draft: Entry) {
    draft.taskId != "" && draft.workflowId != "" && draft.state != Other("")
  }

  /** Append answers the number of the entry it adds, which it tells from all others; or what the entry lacks. */
  lemma AppendAnswers(log: LogState, draft: Entry, now: int)
    requires LogInv(log)
    ensures var (log', answer) := (AppendTo(log, draft, now).log, AppendTo(log, draft, now).answer);
            && (answer.Success? <==> Acceptable(draft))
            && (answer.Success? ==>
                  && |log'.history| == |log.history| + 1
                  && forall i :: 0 <= i < |log'.history| ==>
                       (log'.history[i].sequence == answer.value <==> i == |log.history|))
            && (answer.Failure? ==> log' == log)
            && (answer == Failure(MissingTaskId) <==> draft.taskId == "")
            && (answer == Failure(MissingWorkflowId) <==> draft.taskId != "" && draft.workflowId == "")
            && (answer == Failure(MissingState) <==>
                draft.taskId != "" && draft.workflowId != "" && draft.state == Other(""))
  {
  }

  /** The entries that Append took, numbered from 1 and stamped with the time of the call. */
  function Written(ops: seq<WalOp>): seq<Entry> {
    if ops == [] then [] else
      var earlier, op := Written(ops[..|ops| - 1]), ops[|ops| - 1];
      if op.DoAppend? && Acceptable(op.draft)
      then earlier + [Entry(|earlier| + 1, op.draft.taskId, op.draft.workflowId, op.draft.state, op.draft.data, op.now,
                            false)]
      else earlier
  }

  /** How many of them came after the last Close. */
  function SinceClose(ops: seq<WalOp>): (n: nat)
    ensures n <= |Written(ops)|
  {
    if ops == [] || ops[|ops| - 1].DoClose? then 0 else
      var op := ops[|ops| - 1];
      SinceClose(ops[..|ops| - 1]) + if op.DoAppend? && Acceptable(op.draft) then 1 else 0
  }

  /** The last checkpoint that was not beyond the entries of its time. */
  function LastMark(ops: seq<WalOp>): nat {
    if ops == [] then 0 else
      var before, op := ops[..|ops| - 1], ops[|ops| - 1];
      if op.DoCheckpoint? && op.upTo <= |Written(before)| then op.upTo else LastMark(before)
  }

  /** The log has got `written`, holds the last `held` of it, and has its checkpoint at `mark`. */
  ghost predicate Holding(log: LogState, written: seq<Entry>, held: nat, mark: nat) {
    && log.history == written && log.sequence == |written| && held <= |written|
    && log.entries == written[|written| - held..] && log.committed == mark
  }

  lemma HoldsOneMore(log: LogState, op: WalOp, written: seq<Entry>, held: nat, mark: nat)
    requires Holding(log, written, held, mark) && op.DoAppend? && Acceptable(op.draft)
    ensures var d := op.draft;
            var e := Entry(|written| + 1, d.taskId, d.workflowId, d.state, d.data, op.now, false);
            Holding(LogStep(log, op), written + [e], held + 1, mark)
  {
  }

  /** After every run: what was ever written, the part of it that the log still holds, and the checkpoint. */
  lemma {:induction false} LogHoldsWhatWasWritten(ops: seq<WalOp>)
    ensures Holding(LogRun(EMPTY_LOG, ops), Written(ops), SinceClose(ops), LastMark(ops))
  {
    if ops != [] {
      var before, op := ops[..|ops| - 1], ops[|ops| - 1];
      LogHoldsWhatWasWritten(before);
      if op.DoAppend? && Acceptable(op.draft) {
        HoldsOneMore(LogRun(EMPTY_LOG, before), op, Written(before), SinceClose(before), LastMark(before));
      }
    }
  }

  predicate NothingTaken(ops: seq<WalOp>) {
    forall i :: 0 <= i < |ops| && ops[i].DoAppend? ==> !Acceptable(ops[i].draft)
  }

  /** After Close, Replay and GetAll answer nothing until Append takes an entry again. */
  lemma {:induction false} NothingAfterClose(log: LogState, ops: seq<WalOp>)
    requires NothingTaken(ops)
    ensures var log' := LogRun(Closed(log), ops); log'.entries == [] && Uncommitted(log') == []
  {
    if ops != [] {
      NothingAfterClose(log, ops[..|ops| - 1]);
    }
  }

  // ---------------------------------------------------------------- what Replay is for

  /** The entries with a number above the checkpoint, in order. */
  function After(entries: seq<Entry>, upTo: nat): seq<Entry> {
    if entries == [] then []
    else
      var last := entries[|entries| - 1];
      After(entries[..|entries| - 1], upTo) + if last.sequence > upTo then [last] else []
  }

  lemma {:induction false} AfterCutsNumbered(entries: seq<Entry>, first: nat, upTo: nat)
    requires forall i :: 0 <= i < |entries| ==> entries[i].sequence == first + i + 1
    ensures After(entries, upTo) ==
            if upTo <= first then entries
            else if upTo - first >= |entries| then []
            else entries[upTo - first..]
  {
    if entries != [] {
      var n := |entries| - 1;
      AfterCutsNumbered(entries[..n], first, upTo);
      assert entries == entries[..n] + [entries[n]];
      if first < upTo && upTo - first <= n {
        assert entries[upTo - first..] == entries[..n][upTo - first..] + [entries[n]];
      }
    }
  }

  lemma AfterCheckpoint(log: LogState)
    requires LogInv(log)
    ensures var dropped := log.sequence - |log.entries|;
            After(log.entries, log.committed) ==
            log.entries[if log.committed <= dropped then 0 else log.committed - dropped..]
  {
    var dropped := log.sequence - |log.entries|;
    forall i | 0 <= i < |log.entries|
      ensures log.entries[i].sequence == dropped + i + 1
    {
      assert log.entries[i] == log.history[dropped + i];
    }
    AfterCutsNumbered(log.entries, dropped, log.committed);
  }

  /** How many of the entries held Replay leaves out. */
  function ReplayCut(held: nat, committed: nat): nat {
    if committed >= held then held else committed
  }

  /** How many of them have a number up to the checkpoint. */
  function NumberCut(dropped: nat, committed: nat): nat {
    if committed <= dropped then 0 else committed - dropped
  }

  lemma CutsAgreeIff(held: nat, dropped: nat, committed: nat)
    requires committed <= held + dropped
    ensures ReplayCut(held, committed) == NumberCut(dropped, committed) <==>
            dropped == 0 || held == 0 || committed == 0 || committed == held + dropped
  {
  }

  /**
   * Replay is meant to return the entries above the checkpoint. Of the entries held it returns those exactly when the
   * log was never closed over entries, or holds none, or nothing is committed, or everything is: Close drops entries
   * but keeps the numbering, and Replay counts positions.
   */
  lemma ReplayMeetsItsPurposeIff(log: LogState)
    requires LogInv(log)
    ensures Uncommitted(log) == After(log.entries, log.committed) <==>
            |log.entries| == log.sequence || log.entries == [] || log.committed == 0 || log.committed == log.sequence
  {
    AfterCheckpoint(log);
    var held, dropped := |log.entries|, log.sequence - |log.entries|;
    var cut, right := ReplayCut(held, log.committed), NumberCut(dropped, log.committed);
    CutsAgreeIff(held, dropped, log.committed);
    assert Uncommitted(log) == log.entries[cut..];
    assert |log.entries[right..]| == held - right && |log.entries[cut..]| == held - cut;
  }

  /**
   * Of all entries ever logged it returns those above the checkpoint exactly when the log was never closed over entries
   * or everything is committed.
   */
  lemma ReplayIsCompleteIff(log: LogState)
    requires LogInv(log)
    ensures Uncommitted(log) == After(log.history, log.committed) <==>
            |log.entries| == log.sequence || log.committed == log.sequence
  {
    AfterCutsNumbered(log.history, 0, log.committed);
    assert |After(log.history, log.committed)| == log.sequence - log.committed;
  }

  /** A reachable log on which Replay loses an entry nobody checkpointed. */
  lemma ReplayAfterCloseLosesAnEntry()
    ensures exists ops, e: Entry ::
              var log := LogRun(EMPTY_LOG, ops);
              e in log.entries && e.sequence > log.committed && e !in Uncommitted(log)
  {
    var d := Draft("t", "w", Pending, "");
    var e := d.(sequence := 2);
    var ops := [DoAppend(d, 0), DoCheckpoint(1), DoClose, DoAppend(d, 0)];
    var l1 := AppendTo(EMPTY_LOG, d, 0).log;
    var l2 := CheckpointAt(l1, 1).0;
    var l3 := Closed(l2);
    assert LogRun(EMPTY_LOG, ops[..3]) == l3 by {
      assert ops[..3][..2] == ops[..2] && ops[..2][..1] == ops[..1] && ops[..1][..0] == [];
      assert LogRun(EMPTY_LOG, ops[..1]) == l1;
      assert LogRun(EMPTY_LOG, ops[..2]) == l2;
    }
    var log := LogRun(EMPTY_LOG, ops);
    assert log == AppendTo(l3, d, 0).log;
    assert log.entries == [e] && log.committed == 1;
    assert e in log.entries && e.sequence > log.committed && e !in Uncommitted(log);
  }

  // ---------------------------------------------------------------- the logger

  /** A Go slice header: where the elements live and how many of them belong to the slice. */
  datatype Slice = Slice(buffer: array<Entry>, len: nat)

  class InMemoryLogger {
    var buffer: array<Entry>
    var len: nat
    var sequence: nat
    var committed: nat
    ghost var history: seq<Entry>

    ghost function View(): LogState
      requires Valid()
      reads this, buffer
    {
      LogState(buffer[..len], sequence, committed, history)
    }

    ghost predicate Valid()
      reads this
    {
      len <= buffer.Length
    }

    constructor ()
      ensures Valid() && fresh(buffer) && View() == EMPTY_LOG
    {
      buffer := new Entry[1000];
      len, sequence, committed, history := 0, 0, 0, [];
    }

    /** append moves to a larger array, of unspecified size, when there is no room. */
    method Grow()
      requires len <= buffer.Length
      modifies `buffer
      ensures len < buffer.Length && (buffer == old(buffer) || fresh(buffer))
      ensures buffer[..len] == old(buffer[..len])
    {
      if len == buffer.Length {
        var capacity: nat :| capacity > len;
        var larger := new Entry[capacity];
        forall i | 0 <= i < len {
          larger[i] := buffer[i];
        }
        buffer := larger;
      }
    }

    method Append(draft: Entry, now: int) returns (answer: Result<nat>)
      requires Valid()
      modifies this, buffer
      ensures Valid() && (buffer == old(buffer) || fresh(buffer))
      ensures var expected := AppendTo(old(View()), draft, now);
              View() == expected.log && answer == expected.answer
      ensures old(buffer[..len]) == old(buffer)[..old(len)] && (buffer == old(buffer) ==> old(len) <= len)
    {
      if draft.taskId == "" {
        return Failure(MissingTaskId);
      }
      if draft.workflowId == "" {
        return Failure(MissingWorkflowId);
      }
      if draft.state == Other("") {
        return Failure(MissingState);
      }
      ghost var before := View();
      var entry := draft.(sequence := sequence + 1, timestamp := now, committed := false);
      Grow();
      buffer[len] := entry;
      len, sequence, history := len + 1, sequence + 1, history + [entry];
      assert buffer[..len] == before.entries + [entry];
      assert View() == AppendTo(before, draft, now).log;
      return Success(sequence);
    }

    method Checkpoint(upTo: nat) returns (answer: Result<()>)
      requires Valid()
      modifies `committed
      ensures Valid()
      ensures (View(), answer) == CheckpointAt(old(View()), upTo)
    {
      if upTo > sequence {
        return Failure(CheckpointBeyondLatest);
      }
      committed := upTo;
      return Success(());
    }

    method Close()
      requires Valid()
      modifies `buffer, `len
      ensures Valid() && fresh(buffer) && View() == Closed(old(View()))
    {
      buffer := new Entry[0];
      len := 0;
    }

    method Execute(op: WalOp)
      requires Valid()
      modifies this, buffer
      ensures Valid() && (buffer == old(buffer) || fresh(buffer))
      ensures View() == LogStep(old(View()), op)
      ensures old(buffer[..len]) == old(buffer)[..old(len)] && (buffer == old(buffer) ==> old(len) <= len)
    {
      match op {
        case DoAppend(draft, now) => var _ := Append(draft, now);
        case DoCheckpoint(upTo) => var _ := Checkpoint(upTo);
        case DoClose => Close();
      }
    }

    /** The other callers act while a reader holds a slice header: what the header shows stays as it is. */
    method LetOthersAct(others: seq<WalOp>, entries: Slice)
      requires Valid() && entries == Slice(buffer, len)
      modifies this, buffer
      ensures Valid() && View() == LogRun(old(View()), others)
      ensures entries.len <= entries.buffer.Length && entries.buffer[..entries.len] == old(buffer[..len])
    {
      ghost var held := buffer[..len];
      for i := 0 to |others|
        invariant Valid() && (buffer == old(buffer) || fresh(buffer))
        invariant View() == LogRun(old(View()), others[..i])
        invariant entries.len <= entries.buffer.Length && entries.buffer[..entries.len] == held
        invariant buffer == entries.buffer ==> entries.len <= len
      {
        assert others[..i + 1][..i] == others[..i];
        Execute(others[i]);
      }
      assert others[..|others|] == others;
    }

    /**
     * Replay takes the slice header and the checkpoint under the lock and copies after releasing it.
     * `others` is whatever the other callers do in between.
     */
    method Replay(others: seq<WalOp>) returns (result: seq<Entry>)
      requires Valid()
      modifies this, buffer
      ensures Valid() && View() == LogRun(old(View()), others)
      ensures result == Uncommitted(old(View()))
    {
      var committed, entries := this.committed, Slice(buffer, len);
      LetOthersAct(others, entries);
      if committed >= entries.len {
        return [];
      }
      assert entries.buffer[committed..entries.len] == entries.buffer[..entries.len][committed..];
      return entries.buffer[committed..entries.len];
    }

    /** Takes the slice header under the lock and copies after releasing it, like Replay. */
    method GetAll(others: seq<WalOp>) returns (result: seq<Entry>)
      requires Valid()
      modifies this, buffer
      ensures Valid() && View() == LogRun(old(View()), others)
      ensures result == old(View()).entries
    {
      var entries := Slice(buffer, len);
      LetOthersAct(others, entries);
      result := entries.buffer[..entries.len];
    }
  }
}
