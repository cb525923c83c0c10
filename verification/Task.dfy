/** One task: its value, and the object the engine keeps (internal/task/task.go). */
module Tasks {
  import opened Results
  import opened TaskState

  /** The fields of a task as a value. Times are clock readings in nanoseconds. */
  datatype TaskView = TaskView(
    id: string,
    workflowId: string,
    name: string,
    state: State,
    payload: Bytes,
    result: Bytes,
    error: Bytes,
    partitionId: int,
    attempts: nat,
    maxAttempts: nat,
    createdAt: int,
    updatedAt: int,
    dispatchedAt: Option<int>,
    completedAt: Option<int>)

  function NewTask(id: string, workflowId: string, name: string, payload: Bytes, now: int): TaskView {
    TaskView(id, workflowId, name, Pending, payload, "", "", 0, 0, 3, now, now, None, None)
  }

  /** `updated` and `stamped` are the two clock readings of the call, in that order. */
  function Transitioned(t: TaskView, newState: State, updated: int, stamped: int): Result<TaskView> {
    if !Allowed(t.state, newState) then Failure(CanTransition(t.state, newState).error) else
      var moved := t.(state := newState, updatedAt := updated);
      Success(match newState
              case Dispatched => moved.(dispatchedAt := Some(stamped), attempts := t.attempts + 1)
              case Completed => moved.(completedAt := Some(stamped))
              case _ => moved)
  }

  // ---------------------------------------------------------------- what a task always satisfies

  /** The fields that describe progress agree with each other. */
  ghost predicate Coherent(t: TaskView) {
    && t.id != "" && t.workflowId != ""
    && IsValidState(t.state)
    && (t.dispatchedAt.Some? <==> t.attempts > 0)
    && (t.completedAt.Some? <==> t.state == Completed)
    && (t.state in {Dispatched, Completed, Failed} ==> t.attempts > 0)
  }

  /** The recorded times are in order and none is later than `now`. */
  ghost predicate TimesInOrder(t: TaskView, now: int) {
    && t.createdAt <= t.updatedAt <= now
    && (t.dispatchedAt.Some? ==> t.createdAt <= t.dispatchedAt.value <= now)
    && (t.completedAt.Some? && t.dispatchedAt.Some? ==> t.dispatchedAt.value <= t.completedAt.value <= now)
  }

  /** A transition keeps both, when the clock does not run backwards. */
  lemma TransitionKeepsOrder(t: TaskView, newState: State, now: int, updated: int, stamped: int)
    requires Coherent(t) && TimesInOrder(t, now) && now <= updated <= stamped
    requires Allowed(t.state, newState)
    ensures var moved := Transitioned(t, newState, updated, stamped);
            moved.Success? && Coherent(moved.value) && TimesInOrder(moved.value, stamped)
  {
    assert newState in Targets(t.state);
  }

  // ---------------------------------------------------------------- the object

  class Task {
    var id: string
    var workflowId: string
    var name: string
    var state: State
    var payload: Bytes
    var result: Bytes
    var error: Bytes
    var partitionId: int
    var attempts: nat
    var maxAttempts: nat
    var createdAt: int
    var updatedAt: int
    var dispatchedAt: Option<int>
    var completedAt: Option<int>

    ghost function View(): TaskView
      reads this
    {
      TaskView(id, workflowId, name, state, payload, result, error, partitionId, attempts, maxAttempts,
               createdAt, updatedAt, dispatchedAt, completedAt)
    }

    constructor (id: string, workflowId: string, name: string, payload: Bytes, now: int)
      ensures View() == NewTask(id, workflowId, name, payload, now)
    {
      this.id, this.workflowId, this.name, this.payload := id, workflowId, name, payload;
      state, result, error := Pending, "", "";
      partitionId, attempts, maxAttempts := 0, 0, 3;
      createdAt, updatedAt, dispatchedAt, completedAt := now, now, None, None;
    }

    /** The struct assignment at the head of Copy. */
    constructor Of(t: Task)
      ensures View() == t.View()
    {
      id, workflowId, name, state := t.id, t.workflowId, t.name, t.state;
      payload, result, error := t.payload, t.result, t.error;
      partitionId, attempts, maxAttempts := t.partitionId, t.attempts, t.maxAttempts;
      createdAt, updatedAt, dispatchedAt, completedAt := t.createdAt, t.updatedAt, t.dispatchedAt, t.completedAt;
    }

    method TransitionTo(newState: State, updated: int, stamped: int) returns (r: Result<()>)
      modifies this
      ensures r == CanTransition(old(state), newState) && id == old(id)
      ensures View() == if r.Success? then Transitioned(old(View()), newState, updated, stamped).value else old(View())
    {
      r := CanTransition(state, newState);
      if r.Failure? {
        return;
      }
      state, updatedAt := newState, updated;
      match newState {
        case Dispatched =>
          dispatchedAt, attempts := Some(stamped), attempts + 1;
        case Completed =>
          completedAt := Some(stamped);
        case _ =>
      }
    }

    method Copy() returns (c: Task)
      ensures fresh(c) && c.View() == View()
    {
      c := new Task.Of(this);
    }
  }
}
