/** When leaving out a stretch of the log keeps the workflow lists that it rebuilds. */
module GapOrder {
  import opened Results
  import opened Wal
  import opened Recovery
  import opened PartialRecovery
  import opened History

  // ---------------------------------------------------------------- lists in the order of first entries

  lemma FirstIs(es: seq<Entry>, id: string, i: nat)
    requires i <= |es| && (i < |es| ==> es[i].taskId == id)
    requires forall j :: 0 <= j < i ==> es[j].taskId != id
    ensures FirstAt(es, id) == i
  {
  }

  lemma FirstAtConcat(a: seq<Entry>, b: seq<Entry>, id: string)
    ensures FirstAt(a + b, id) == if FirstAt(a, id) < |a| then FirstAt(a, id) else |a| + FirstAt(b, id)
  {
    var i := if FirstAt(a, id) < |a| then FirstAt(a, id) else |a| + FirstAt(b, id);
    forall j | 0 <= j < i ensures (a + b)[j].taskId != id {
      assert (a + b)[j] == if j < |a| then a[j] else b[j - |a|];
    }
    FirstIs(a + b, id, i);
  }

  lemma FirstAtGrows(es: seq<Entry>, e: Entry, id: string)
    ensures FirstAt(es + [e], id) ==
            if FirstAt(es, id) < |es| then FirstAt(es, id) else if e.taskId == id then |es| else |es| + 1
  {
    assert (es + [e])[..|es|] == es;
  }

  lemma FirstAtIffStates(es: seq<Entry>, id: string)
    ensures FirstAt(es, id) == |es| <==> States(es, id) == []
  {
    NoStatesIff(es, id);
  }

  lemma {:induction false} NoStatesIff(es: seq<Entry>, id: string)
    ensures States(es, id) == [] <==> forall i :: 0 <= i < |es| ==> es[i].taskId != id
  {
    if es != [] {
      NoStatesIff(es[..|es| - 1], id);
      assert forall i :: 0 <= i < |es| - 1 ==> es[..|es| - 1][i] == es[i];
    }
  }

  predicate NamesAt(es: seq<Entry>, i: int, w: string) {
    0 <= i < |es| && es[i].workflowId == w
  }

  /** The task has an entry, and the first one names workflow w. */
  predicate StartsIn(es: seq<Entry>, id: string, w: string) {
    NamesAt(es, FirstAt(es, id), w)
  }

  /** A workflow's list in the order of the log holds exactly the tasks that start in it. */
  lemma {:induction false} CreatedInHolds(es: seq<Entry>, w: string, id: string)
    ensures id in CreatedIn(es, w) <==> StartsIn(es, id, w)
  {
    if es != [] {
      var before, e := es[..|es| - 1], es[|es| - 1];
      CreatedInHolds(before, w, id);
      assert es == before + [e];
      FirstAtGrows(before, e, id);
      FirstAtIffStates(before, e.taskId);
      assert FirstAt(before, id) < |before| ==> es[FirstAt(before, id)] == before[FirstAt(before, id)];
    }
  }

  /** Each element of the list has a smaller key than the next. */
  ghost predicate SortedBy(ids: seq<string>, key: string -> int) {
    forall i, j :: 0 <= i < j < |ids| ==> key(ids[i]) < key(ids[j])
  }

  lemma {:induction false} CreatedInIsSorted(es: seq<Entry>, w: string)
    ensures SortedBy(CreatedIn(es, w), id => FirstAt(es, id))
  {
    if es != [] {
      var before, e := es[..|es| - 1], es[|es| - 1];
      var ids, shorter := CreatedIn(es, w), CreatedIn(before, w);
      CreatedInIsSorted(before, w);
      assert es == before + [e];
      FirstAtIffStates(before, e.taskId);
      FirstAtGrows(before, e, e.taskId);
      forall i | 0 <= i < |shorter|
        ensures FirstAt(es, shorter[i]) == FirstAt(before, shorter[i]) < |before|
      {
        CreatedInHolds(before, w, shorter[i]);
        FirstAtGrows(before, e, shorter[i]);
      }
      forall i, j | 0 <= i < j < |ids|
        ensures FirstAt(es, ids[i]) < FirstAt(es, ids[j])
      {
        assert ids[i] == shorter[i];
        if j < |shorter| {
          assert ids[j] == shorter[j];
          assert SortedBy(shorter, id => FirstAt(before, id));
        }
      }
    }
  }

  /** Two lists sorted by the same key that hold the same elements are the same. */
  lemma {:induction false} SortedOnce(a: seq<string>, b: seq<string>, key: string -> int)
    requires SortedBy(a, key) && SortedBy(b, key)
    requires forall id :: id in a <==> id in b
    ensures a == b
  {
    assert a != [] ==> a[0] in b;
    assert b != [] ==> b[0] in a;
    if a != [] {
      var x, y := a[|a| - 1], b[|b| - 1];
      assert x in b && y in a;
      var i :| 0 <= i < |b| && b[i] == x;
      var j :| 0 <= j < |a| && a[j] == y;
      assert x == y;
      var shorterA, shorterB := a[..|a| - 1], b[..|b| - 1];
      forall id ensures id in shorterA <==> id in shorterB {
        InFront(a, key, id);
        InFront(b, key, id);
      }
      SortedOnce(shorterA, shorterB, key);
    }
  }

  lemma InFront(a: seq<string>, key: string -> int, id: string)
    requires SortedBy(a, key) && a != []
    ensures id in a[..|a| - 1] <==> id in a && id != a[|a| - 1]
  {
    assert a == a[..|a| - 1] + [a[|a| - 1]];
  }

  // ---------------------------------------------------------------- a log without a stretch

  /** The entries of a task all name one workflow. */
  ghost predicate OneWorkflow(h: seq<Entry>) {
    forall i, j :: 0 <= i < j < |h| && h[i].taskId == h[j].taskId ==> h[i].workflowId == h[j].workflowId
  }

  /** The tasks x and y are of one workflow, x is created in the stretch from m to `from`, and y after it. */
  ghost predicate CreatedInGap(h: seq<Entry>, m: nat, from: nat, x: string, y: string) {
    && m <= FirstAt(h, x) < from && FirstAt(h, x) < FirstAt(h, y) < |h|
    && h[FirstAt(h, x)].workflowId == h[FirstAt(h, y)].workflowId
  }

  /** Each task created in the stretch is logged again before any task of its workflow that was created after it. */
  ghost predicate KeepsOrder(h: seq<Entry>, m: nat, from: nat)
    requires m <= from <= |h|
  {
    forall x, y :: CreatedInGap(h, m, from, x, y) ==> FirstAt(h[from..], x) < FirstAt(h[from..], y)
  }

  function Without(h: seq<Entry>, m: nat, from: nat): seq<Entry>
    requires m <= from <= |h|
  {
    h[..m] + h[from..]
  }

  lemma FirstAtSplit(h: seq<Entry>, n: nat, id: string)
    requires n <= |h|
    ensures FirstAt(h, id) == if FirstAt(h[..n], id) < n then FirstAt(h[..n], id) else n + FirstAt(h[n..], id)
  {
    assert h[..n] + h[n..] == h;
    FirstAtConcat(h[..n], h[n..], id);
  }

  lemma FirstWithout(h: seq<Entry>, m: nat, from: nat, id: string)
    requires m <= from <= |h|
    ensures FirstAt(Without(h, m, from), id) ==
            if FirstAt(h, id) < m then FirstAt(h, id) else m + FirstAt(h[from..], id)
    ensures FirstAt(h, id) >= from ==> FirstAt(h, id) == from + FirstAt(h[from..], id)
  {
    FirstAtConcat(h[..m], h[from..], id);
    FirstAtSplit(h, m, id);
    FirstAtSplit(h, from, id);
  }

  /** Two tasks of one workflow come in the same order with and without the stretch. */
  ghost predicate SameOrder(h: seq<Entry>, m: nat, from: nat, x: string, y: string)
    requires m <= from <= |h|
  {
    FirstAt(h, x) < FirstAt(h, y) <==> FirstAt(Without(h, m, from), x) < FirstAt(Without(h, m, from), y)
  }

  lemma KeptOrder(h: seq<Entry>, m: nat, from: nat, x: string, y: string)
    requires m <= from <= |h| && KeepsOrder(h, m, from)
    requires FirstAt(h, x) < |h| && FirstAt(h, y) < |h|
    requires h[FirstAt(h, x)].workflowId == h[FirstAt(h, y)].workflowId
    ensures SameOrder(h, m, from, x, y)
  {
    FirstWithout(h, m, from, x);
    FirstWithout(h, m, from, y);
    assert CreatedInGap(h, m, from, x, y) ==> FirstAt(h[from..], x) < FirstAt(h[from..], y);
    assert CreatedInGap(h, m, from, y, x) ==> FirstAt(h[from..], y) < FirstAt(h[from..], x);
    if FirstAt(h, x) == FirstAt(h, y) {
      assert x == y;
    }
  }

  /** The log without the stretch starts the same tasks in the same workflows. */
  ghost predicate SameStarts(h: seq<Entry>, m: nat, from: nat)
    requires m <= from <= |h|
  {
    forall id, w :: StartsIn(Without(h, m, from), id, w) <==> StartsIn(h, id, w)
  }

  lemma ListKept(h: seq<Entry>, m: nat, from: nat, w: string)
    requires m <= from <= |h| && SameStarts(h, m, from) && KeepsOrder(h, m, from)
    ensures CreatedIn(Without(h, m, from), w) == CreatedIn(h, w)
  {
    var part, whole := CreatedIn(Without(h, m, from), w), CreatedIn(h, w);
    CreatedInIsSorted(Without(h, m, from), w);
    CreatedInIsSorted(h, w);
    forall id ensures id in part <==> id in whole {
      CreatedInHolds(Without(h, m, from), w, id);
      CreatedInHolds(h, w, id);
    }
    var key := (id: string) => FirstAt(h, id);
    forall i, j | 0 <= i < j < |part|
      ensures key(part[i]) < key(part[j])
    {
      assert part[i] in whole && part[j] in whole;
      CreatedInHolds(h, w, part[i]);
      CreatedInHolds(h, w, part[j]);
      KeptOrder(h, m, from, part[i], part[j]);
    }
    SortedOnce(part, whole, key);
  }

  lemma ListNotKept(h: seq<Entry>, m: nat, from: nat, x: string, y: string)
    requires m <= from <= |h| && SameStarts(h, m, from)
    requires CreatedInGap(h, m, from, x, y) && FirstAt(h[from..], x) >= FirstAt(h[from..], y)
    ensures var w := h[FirstAt(h, x)].workflowId; CreatedIn(Without(h, m, from), w) != CreatedIn(h, w)
  {
    var w := h[FirstAt(h, x)].workflowId;
    FirstWithout(h, m, from, x);
    FirstWithout(h, m, from, y);
    CreatedInHolds(h, w, x);
    CreatedInHolds(h, w, y);
    CreatedInIsSorted(h, w);
    CreatedInIsSorted(Without(h, m, from), w);
    var list := CreatedIn(h, w);
    var i :| 0 <= i < |list| && list[i] == x;
    var j :| 0 <= j < |list| && list[j] == y;
  }

  /** Leaving the stretch out keeps every workflow's list exactly when it keeps that order. */
  lemma {:induction false} ListsKeptIff(h: seq<Entry>, m: nat, from: nat)
    requires m <= from <= |h| && SameStarts(h, m, from)
    ensures (forall w :: CreatedIn(Without(h, m, from), w) == CreatedIn(h, w)) <==> KeepsOrder(h, m, from)
  {
    if KeepsOrder(h, m, from) {
      forall w ensures CreatedIn(Without(h, m, from), w) == CreatedIn(h, w) {
        ListKept(h, m, from, w);
      }
    } else {
      var x, y :| CreatedInGap(h, m, from, x, y) && FirstAt(h[from..], x) >= FirstAt(h[from..], y);
      ListNotKept(h, m, from, x, y);
    }
  }

  ghost predicate LoggedFrom(h: seq<Entry>, from: nat, id: string) {
    exists j :: from <= j < |h| && h[j].taskId == id
  }

  lemma NamesAtConcat(a: seq<Entry>, b: seq<Entry>, i: nat, w: string)
    ensures NamesAt(a + b, i, w) <==> if i < |a| then NamesAt(a, i, w) else NamesAt(b, i - |a|, w)
  {
  }

  lemma StartsInConcat(a: seq<Entry>, b: seq<Entry>, id: string, w: string)
    ensures StartsIn(a + b, id, w) <==> if FirstAt(a, id) < |a| then StartsIn(a, id, w) else StartsIn(b, id, w)
  {
    FirstAtConcat(a, b, id);
    NamesAtConcat(a, b, FirstAt(a + b, id), w);
  }

  lemma SameStart(a: seq<Entry>, g: seq<Entry>, c: seq<Entry>, id: string, w: string)
    requires OneWorkflow(a + g + c) && (FirstAt(g, id) < |g| ==> FirstAt(c, id) < |c|)
    ensures StartsIn(a + c, id, w) <==> StartsIn(a + g + c, id, w)
  {
    StartsInConcat(a, c, id, w);
    StartsInConcat(a + g, c, id, w);
    StartsInConcat(a, g, id, w);
    FirstAtConcat(a, g, id);
    if FirstAt(g, id) < |g| {
      SameWorkflow(a + g + c, a, g, c, FirstAt(g, id), FirstAt(c, id));
    }
  }

  lemma SameWorkflow(h: seq<Entry>, a: seq<Entry>, g: seq<Entry>, c: seq<Entry>, i: nat, j: nat)
    requires OneWorkflow(h) && h == a + g + c && i < |g| && j < |c| && g[i].taskId == c[j].taskId
    ensures g[i].workflowId == c[j].workflowId
  {
    assert h[|a| + i] == g[i] && h[|a| + |g| + j] == c[j];
  }

  lemma LoggedThere(h: seq<Entry>, from: nat, id: string)
    requires from <= |h| && LoggedFrom(h, from, id)
    ensures FirstAt(h[from..], id) < |h| - from
  {
    var j :| from <= j < |h| && h[j].taskId == id;
    assert h[from..][j - from].taskId == id;
  }

  /** When each task of the stretch is logged again after it, the same tasks start. */
  lemma {:induction false} AgainMeansSameStarts(h: seq<Entry>, m: nat, from: nat)
    requires m <= from <= |h| && OneWorkflow(h)
    requires forall i :: m <= i < from ==> LoggedFrom(h, from, h[i].taskId)
    ensures SameStarts(h, m, from)
  {
    var a, g, c := h[..m], h[m..from], h[from..];
    assert a + g + c == h;
    forall id, w ensures StartsIn(Without(h, m, from), id, w) <==> StartsIn(h, id, w) {
      if FirstAt(g, id) < |g| {
        assert h[m + FirstAt(g, id)] == g[FirstAt(g, id)];
        LoggedThere(h, from, id);
      }
      SameStart(a, g, c, id, w);
    }
  }
}
