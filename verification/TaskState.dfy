/** The task state machine (internal/task/state.go). */
module TaskState {
  import opened Results

  /** A state is a string in the source. `Other` stands for every string that is not one of the six. */
  datatype State = Pending | Scheduled | Dispatched | Completed | Failed | Cancelled | Other(name: string)

  function AllStates(): seq<State> {
    [Pending, Scheduled, Dispatched, Completed, Failed, Cancelled]
  }

  predicate IsValidState(s: State) {
    s in AllStates()
  }

  function Targets(from: State): seq<State> {
    match from
    case Pending => [Scheduled, Cancelled]
    case Scheduled => [Dispatched, Cancelled]
    case Dispatched => [Completed, Failed, Pending]
    case _ => []
  }

  function CanTransition(from: State, to: State): Result<()> {
    if !IsValidState(from) then Failure(InvalidFromState)
    else if !IsValidState(to) then Failure(InvalidToState)
    else if to in Targets(from) then Success(())
    else Failure(InvalidTransition)
  }

  predicate Allowed(from: State, to: State) {
    CanTransition(from, to).Success?
  }

  predicate IsTerminal(s: State) {
    s in {Completed, Failed, Cancelled}
  }

  /** The check of a transition says which of its ends is unknown, the first one first, or that the table lacks it. */
  lemma CheckAnswers(from: State, to: State)
    ensures CanTransition(from, to) == Failure(InvalidFromState) <==> !IsValidState(from)
    ensures CanTransition(from, to) == Failure(InvalidToState) <==> IsValidState(from) && !IsValidState(to)
    ensures CanTransition(from, to) == Failure(InvalidTransition) <==>
            IsValidState(from) && IsValidState(to) && to !in Targets(from)
    ensures Allowed(from, to) <==> to in Targets(from)
  {
    assert to in Targets(from) ==> to in AllStates();
    assert from in AllStates() <==> !from.Other?;
  }

  /** Among the valid states the terminal ones are exactly those without a way out. */
  lemma TerminalIffStuck(s: State)
    requires IsValidState(s)
    ensures IsTerminal(s) <==> forall to :: !Allowed(s, to)
  {
    if !IsTerminal(s) {
      assert Targets(s)[0] in Targets(s);
      assert Allowed(s, Targets(s)[0]);
    }
  }

  // ---------------------------------------------------------------- histories

  /** The states a task goes through: PENDING first, every next state allowed from the one before. */
  ghost predicate LegalPath(path: seq<State>) {
    var n := |path|;
    n > 0 && if n == 1 then path[0] == Pending
             else LegalPath(path[..n - 1]) && Allowed(path[n - 2], path[n - 1])
  }

  /** The state at position i of a task that never ends. */
  function Cycle(i: nat): State {
    if i % 3 == 0 then Pending else if i % 3 == 1 then Scheduled else Dispatched
  }

  /** The number of entries that are not terminal. */
  function Running(path: seq<State>): nat {
    if path != [] && IsTerminal(path[|path| - 1]) then |path| - 1 else |path|
  }

  /** PENDING, SCHEDULED, DISPATCHED over and over, then at most one terminal state, whose kind the length decides. */
  ghost predicate ClosedForm(path: seq<State>) {
    var n := Running(path);
    && n > 0
    && (forall i :: 0 <= i < n ==> path[i] == Cycle(i))
    && (n < |path| && n % 3 == 0 ==> path[n] in {Completed, Failed})
    && (n < |path| && n % 3 != 0 ==> path[n] == Cancelled)
  }

  function DispatchCount(path: seq<State>): nat {
    if path == [] then 0
    else DispatchCount(path[..|path| - 1]) + if path[|path| - 1] == Dispatched then 1 else 0
  }

  /** Where the cycle stands decides which states may come next. */
  lemma NextInCycle(n: nat, to: State)
    requires n > 0
    ensures Allowed(Cycle(n - 1), to) <==>
            to == Cycle(n) || to in (if n % 3 == 0 then {Completed, Failed} else {Cancelled})
  {
    assert Cycle(n - 1) in {Pending, Scheduled, Dispatched};
    assert to in AllStates() <==> !to.Other?;
  }

  /** What may follow a closed form. */
  lemma ClosedFormGoesOn(init: seq<State>, to: State)
    requires init != [] && ClosedForm(init)
    ensures var n := |init|;
            Allowed(init[n - 1], to) <==>
            Running(init) == n && (to == Cycle(n) || to in (if n % 3 == 0 then {Completed, Failed} else {Cancelled}))
  {
    var n := |init|;
    if Running(init) == n {
      assert init[n - 1] == Cycle(n - 1);
      NextInCycle(n, to);
    } else {
      TerminalIffStuck(init[n - 1]);
    }
  }

  /** The transition table admits exactly the sequences of the closed form. */
  lemma {:induction false} LegalPathIffClosedForm(path: seq<State>)
    ensures LegalPath(path) <==> ClosedForm(path)
  {
    var last := |path| - 1;
    if last > 0 {
      var init := path[..last];
      LegalPathIffClosedForm(init);
      ClosedFormExtends(path);
      if ClosedForm(init) {
        assert path[last - 1] == init[last - 1];
        ClosedFormGoesOn(init, path[last]);
      }
    }
  }

  /** A longer closed form is one of running states only, extended by one more state. */
  lemma ClosedFormExtends(path: seq<State>)
    requires |path| > 1
    ensures var last := |path| - 1; var init := path[..last];
            ClosedForm(path) <==>
            && ClosedForm(init) && Running(init) == last
            && (path[last] == Cycle(last) || path[last] in (if last % 3 == 0 then {Completed, Failed} else {Cancelled}))
  {
    var last := |path| - 1;
    var init := path[..last];
    if ClosedForm(path) {
      assert path[last - 1] == Cycle(last - 1);
      assert !IsTerminal(init[last - 1]);
      assert forall i :: 0 <= i < last ==> init[i] == path[i];
    }
    assert forall i :: 0 <= i < last ==> path[i] == init[i];
  }

  /** The number of attempts is a third of the number of running entries. */
  lemma {:induction false} DispatchesOfClosedForm(path: seq<State>)
    requires ClosedForm(path)
    ensures DispatchCount(path) == Running(path) / 3
  {
    var last := |path| - 1;
    if last > 0 {
      var init := path[..last];
      ClosedFormExtends(path);
      DispatchesOfClosedForm(init);
    }
  }
}
