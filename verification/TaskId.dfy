/** How the engine prints task ids: task-<workflow>-<nanoseconds> (internal/executor/executor.go:65). */
module TaskId {
  import opened Results

  const PREFIX := "task-"

  function Digit(d: nat): char
    requires d < 10
  {
    '0' + d as char
  }

  /** The %d verb on a number that is not negative. */
  function Decimal(n: nat): string {
    if n < 10 then [Digit(n)] else Decimal(n / 10) + [Digit(n % 10)]
  }

  /** The %d verb. */
  function Print(n: int): string {
    if n < 0 then "-" + Decimal(-n) else Decimal(n)
  }

  function Make(workflowId: string, nanos: int): string {
    PREFIX + workflowId + "-" + Print(nanos)
  }

  // ---------------------------------------------------------------- the way back

  /** The value of a string of digits. */
  function Value(digits: string): int {
    if digits == "" then 0
    else Value(digits[..|digits| - 1]) * 10 + (digits[|digits| - 1] as int - '0' as int)
  }

  /** Where the last '-' stands, or -1. */
  function LastDash(s: string): int
    ensures -1 <= LastDash(s) < |s|
  {
    if s == "" then -1
    else if s[|s| - 1] == '-' then |s| - 1
    else LastDash(s[..|s| - 1])
  }

  /** Strips the prefix and splits at the last '-'. */
  function Parse(id: string): Option<(string, int)> {
    if !(PREFIX <= id) then None else
      var rest := id[|PREFIX|..];
      var at := LastDash(rest);
      if at < 0 then None else Some((rest[..at], Value(rest[at + 1..])))
  }

  lemma {:induction false} DecimalHasNoDash(n: nat)
    ensures '-' !in Decimal(n) && Decimal(n) != ""
  {
    if n >= 10 {
      DecimalHasNoDash(n / 10);
    }
  }

  lemma {:induction false} ValueOfDecimal(n: nat)
    ensures Value(Decimal(n)) == n
  {
    if n >= 10 {
      ValueOfDecimal(n / 10);
      var s := Decimal(n);
      assert s[..|s| - 1] == Decimal(n / 10);
    } else {
      assert Decimal(n)[..0] == "";
    }
  }

  lemma {:induction false} LastDashBeforeTail(s: string, tail: string)
    requires '-' !in tail
    ensures LastDash(s + "-" + tail) == |s|
  {
    var whole := s + "-" + tail;
    if tail != "" {
      var shorter := tail[..|tail| - 1];
      assert whole[..|whole| - 1] == s + "-" + shorter;
      assert whole[|whole| - 1] == tail[|tail| - 1];
      LastDashBeforeTail(s, shorter);
    }
  }

  lemma ParseNonNegative(workflowId: string, nanos: nat)
    ensures Parse(Make(workflowId, nanos)) == Some((workflowId, nanos))
  {
    var id, tail := Make(workflowId, nanos), Decimal(nanos);
    DecimalHasNoDash(nanos);
    ValueOfDecimal(nanos);
    LastDashBeforeTail(workflowId, tail);
    var rest := workflowId + "-" + tail;
    assert id == PREFIX + rest;
    assert id[|PREFIX|..] == rest;
    assert rest[..|workflowId|] == workflowId;
    assert rest[|workflowId| + 1..] == tail;
  }

  /** A clock before 1970 prints a sign, and the sign reads as the end of the workflow id. */
  lemma NegativeClockBorrowsADash(workflowId: string, nanos: int)
    requires nanos < 0
    ensures Make(workflowId, nanos) == Make(workflowId + "-", -nanos)
  {
    assert PREFIX + workflowId + "-" + ("-" + Decimal(-nanos)) == PREFIX + (workflowId + "-") + "-" + Decimal(-nanos);
  }

  /** Workflow and time as they read back: the sign of a clock before 1970 goes to the workflow. */
  function Reading(workflowId: string, nanos: int): (string, int) {
    if nanos >= 0 then (workflowId, nanos) else (workflowId + "-", -nanos)
  }

  /** What the parser makes of every id, whatever dashes the workflow has and whatever the clock reads. */
  lemma ParseMake(workflowId: string, nanos: int)
    ensures Parse(Make(workflowId, nanos)) == Some(Reading(workflowId, nanos))
    ensures var (w, n) := Reading(workflowId, nanos); Make(workflowId, nanos) == Make(w, n)
  {
    if nanos >= 0 {
      ParseNonNegative(workflowId, nanos);
    } else {
      NegativeClockBorrowsADash(workflowId, nanos);
      ParseNonNegative(workflowId + "-", -nanos);
    }
  }

  /** One id is the sign-borrowing twin of the other. */
  predicate Twins(w: string, n: int, w': string, n': int) {
    n < 0 && w' == w + "-" && n' == -n
  }

  lemma SameReadingIff(w: string, n: int, w': string, n': int)
    ensures Reading(w, n) == Reading(w', n') <==> (w, n) == (w', n') || Twins(w, n, w', n') || Twins(w', n', w, n)
  {
    assert w == (w + "-")[..|w|] && w' == (w' + "-")[..|w'|];
  }

  /** Exactly when two ids are the same, for all workflows and all clock readings. */
  lemma SameIdIff(w: string, n: int, w': string, n': int)
    ensures Make(w, n) == Make(w', n') <==> (w, n) == (w', n') || Twins(w, n, w', n') || Twins(w', n', w, n)
  {
    ParseMake(w, n);
    ParseMake(w', n');
    SameReadingIff(w, n, w', n');
  }

  /** The printed form, by two examples. */
  lemma AsPrinted()
    ensures Make("w", 1720) == "task-w-1720"
    ensures Make("w", -7) == "task-w--7"
  {
    assert Decimal(1720) == Decimal(172) + "0" && Decimal(172) == Decimal(17) + "2" && Decimal(17) == "17";
  }

  lemma MakeIsNotEmpty(workflowId: string, nanos: int)
    ensures Make(workflowId, nanos) != ""
  {
    assert |Make(workflowId, nanos)| >= |PREFIX|;
  }
}
