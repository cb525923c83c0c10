/** Partitions and the nodes that own them (internal/partition/partition.go). */
module Partition {
  import opened Results

  /** What is fixed when the manager is made. `hash` stands for FNV-1a: any function of the task id will do. */
  datatype Config = Config(hash: string -> nat, count: nat)

  function PartitionOf(cfg: Config, taskId: string): (r: Result<nat>)
    ensures r.Success? <==> taskId != "" && cfg.count > 0
    ensures r.Success? ==> r.value < cfg.count
  {
    if taskId == "" then Failure(MissingTaskId)
    else if cfg.count == 0 then Failure(NoPartitions)
    else Success(cfg.hash(taskId) % cfg.count)
  }

  datatype ManagerState = ManagerState(nodes: set<string>, owners: map<int, string>)

  const NO_NODES := ManagerState({}, map[])

  /** `order` lists every node once: one of the orders in which a map iteration can meet them. */
  ghost predicate Enumerates(order: seq<string>, nodes: set<string>) {
    && (forall i, j :: 0 <= i < j < |order| ==> order[i] != order[j])
    && (forall i :: 0 <= i < |order| ==> order[i] in nodes)
    && (forall node :: node in nodes ==> node in order)
  }

  lemma {:induction false} EnumerationLength(order: seq<string>, nodes: set<string>)
    requires Enumerates(order, nodes)
    ensures |order| == |nodes|
  {
    if order == [] {
      assert nodes == {};
    } else {
      var before, last := order[..|order| - 1], order[|order| - 1];
      assert order == before + [last];
      EnumerationLength(before, nodes - {last});
    }
  }

  function RoundRobin(order: seq<string>, count: nat): map<int, string> {
    if order == [] then map[] else map i | 0 <= i < count :: order[i % |order|]
  }

  lemma RoundRobinStep(order: seq<string>, i: nat)
    requires order != []
    ensures RoundRobin(order, i + 1) == RoundRobin(order, i)[i := order[i % |order|]]
  {
  }

  ghost function Rebalanced(cfg: Config, nodes: set<string>, order: seq<string>): ManagerState {
    ManagerState(nodes, RoundRobin(order, cfg.count))
  }

  function CanRegister(m: ManagerState, nodeId: string): Result<()> {
    if nodeId == "" then Failure(MissingNodeId)
    else if nodeId in m.nodes then Failure(NodeExists)
    else Success(())
  }

  function CanUnregister(m: ManagerState, nodeId: string): Result<()> {
    if nodeId == "" then Failure(MissingNodeId)
    else if nodeId !in m.nodes then Failure(NodeNotFound)
    else Success(())
  }

  function OwnerOf(cfg: Config, m: ManagerState, partitionId: int): Result<string> {
    if !(0 <= partitionId < cfg.count) then Failure(InvalidPartition)
    else if partitionId !in m.owners then Failure(NoOwner)
    else Success(m.owners[partitionId])
  }

  function Owned(m: ManagerState, nodeId: string): set<int> {
    set p | p in m.owners && m.owners[p] == nodeId
  }

  /** A membership change, with the order in which the map iteration met the nodes. */
  datatype MemberOp =
    | Register(nodeId: string, order: seq<string>)
    | Unregister(nodeId: string, order: seq<string>)
    | Rebalance(order: seq<string>)

  ghost function NodesAfter(m: ManagerState, op: MemberOp): set<string> {
    match op
    case Register(nodeId, _) => if CanRegister(m, nodeId).Success? then m.nodes + {nodeId} else m.nodes
    case Unregister(nodeId, _) => m.nodes - {nodeId}
    case Rebalance(_) => m.nodes
  }

  ghost predicate Rejected(m: ManagerState, op: MemberOp) {
    match op
    case Register(nodeId, _) => CanRegister(m, nodeId).Failure?
    case Unregister(nodeId, _) => CanUnregister(m, nodeId).Failure?
    case Rebalance(_) => false
  }

  /** An operation with an order that no iteration can produce does not happen. */
  ghost function MemberStep(cfg: Config, m: ManagerState, op: MemberOp): ManagerState {
    if Rejected(m, op) || !Enumerates(op.order, NodesAfter(m, op)) then m
    else Rebalanced(cfg, NodesAfter(m, op), op.order)
  }

  ghost function MemberRun(cfg: Config, m: ManagerState, ops: seq<MemberOp>): ManagerState {
    if ops == [] then m else MemberStep(cfg, MemberRun(cfg, m, ops[..|ops| - 1]), ops[|ops| - 1])
  }

  // ---------------------------------------------------------------- what every run keeps

  /** The owners are the round robin over some enumeration of the nodes registered now. */
  ghost predicate Balanced(cfg: Config, m: ManagerState, order: seq<string>) {
    Enumerates(order, m.nodes) && m.owners == RoundRobin(order, cfg.count)
  }

  lemma {:induction false} RunIsBalanced(cfg: Config, ops: seq<MemberOp>)
    ensures exists order :: Balanced(cfg, MemberRun(cfg, NO_NODES, ops), order)
  {
    if ops == [] {
      assert Balanced(cfg, MemberRun(cfg, NO_NODES, ops), []);
    } else {
      var m, op := MemberRun(cfg, NO_NODES, ops[..|ops| - 1]), ops[|ops| - 1];
      RunIsBalanced(cfg, ops[..|ops| - 1]);
      if MemberRun(cfg, NO_NODES, ops) != m {
        assert Balanced(cfg, MemberRun(cfg, NO_NODES, ops), op.order);
      }
    }
  }

  // ---------------------------------------------------------------- who is a member

  /** The change happens: the manager refuses it, or its order is one in which the iteration can meet the nodes. */
  ghost predicate Happens(m: ManagerState, op: MemberOp) {
    Rejected(m, op) || Enumerates(op.order, NodesAfter(m, op))
  }

  ghost predicate AllHappen(cfg: Config, ops: seq<MemberOp>) {
    ops != [] ==>
      AllHappen(cfg, ops[..|ops| - 1]) && Happens(MemberRun(cfg, NO_NODES, ops[..|ops| - 1]), ops[|ops| - 1])
  }

  /** The last change that names the node registers it. */
  predicate Joined(ops: seq<MemberOp>, node: string) {
    ops != [] &&
    match ops[|ops| - 1]
    case Register(id, _) => id == node || Joined(ops[..|ops| - 1], node)
    case Unregister(id, _) => id != node && Joined(ops[..|ops| - 1], node)
    case Rebalance(_) => Joined(ops[..|ops| - 1], node)
  }

  /** After every run the nodes are those that joined last; the empty name never joins. */
  lemma {:induction false} MemberIff(cfg: Config, ops: seq<MemberOp>, node: string)
    requires AllHappen(cfg, ops)
    ensures node in MemberRun(cfg, NO_NODES, ops).nodes <==> node != "" && Joined(ops, node)
  {
    if ops != [] {
      MemberIff(cfg, ops[..|ops| - 1], node);
    }
  }

  /** After every run, which registrations are refused and why; a refusal changes nothing, not even the owners. */
  lemma {:induction false} RegisterRefusedIff(cfg: Config, ops: seq<MemberOp>, nodeId: string, order: seq<string>)
    requires AllHappen(cfg, ops)
    ensures var m := MemberRun(cfg, NO_NODES, ops);
            && (CanRegister(m, nodeId) == Failure(MissingNodeId) <==> nodeId == "")
            && (CanRegister(m, nodeId) == Failure(NodeExists) <==> nodeId != "" && Joined(ops, nodeId))
            && (CanRegister(m, nodeId).Success? <==> nodeId != "" && !Joined(ops, nodeId))
            && (CanRegister(m, nodeId).Failure? ==> MemberStep(cfg, m, Register(nodeId, order)) == m)
  {
    MemberIff(cfg, ops, nodeId);
  }

  lemma {:induction false} UnregisterRefusedIff(cfg: Config, ops: seq<MemberOp>, nodeId: string, order: seq<string>)
    requires AllHappen(cfg, ops)
    ensures var m := MemberRun(cfg, NO_NODES, ops);
            && (CanUnregister(m, nodeId) == Failure(MissingNodeId) <==> nodeId == "")
            && (CanUnregister(m, nodeId) == Failure(NodeNotFound) <==> nodeId != "" && !Joined(ops, nodeId))
            && (CanUnregister(m, nodeId).Success? <==> nodeId != "" && Joined(ops, nodeId))
            && (CanUnregister(m, nodeId).Failure? ==> MemberStep(cfg, m, Unregister(nodeId, order)) == m)
  {
    MemberIff(cfg, ops, nodeId);
  }

  /** The same nodes met in any other order get the same partitions. */
  ghost predicate OrderIrrelevant(nodes: set<string>, order: seq<string>, count: nat) {
    forall other :: Enumerates(other, nodes) ==> RoundRobin(other, count) == RoundRobin(order, count)
  }

  lemma SwappedOrder(order: seq<string>, nodes: set<string>) returns (swapped: seq<string>)
    requires Enumerates(order, nodes) && |order| > 1
    ensures Enumerates(swapped, nodes) && |swapped| == |order| && swapped[0] != order[0]
  {
    swapped := order[0 := order[1]][1 := order[0]];
    forall node | node in nodes ensures node in swapped {
      var i :| 0 <= i < |order| && order[i] == node;
      assert swapped[if i == 0 then 1 else if i == 1 then 0 else i] == node;
    }
  }

  /**
   * Who owns what depends on the order in which the map iteration meets the nodes, exactly when there are two nodes and
   * a partition.
   */
  lemma {:induction false} OrderIrrelevantIff(nodes: set<string>, order: seq<string>, count: nat)
    requires Enumerates(order, nodes)
    ensures OrderIrrelevant(nodes, order, count) <==> |order| <= 1 || count == 0
  {
    if |order| > 1 && count > 0 {
      var swapped := SwappedOrder(order, nodes);
      assert RoundRobin(swapped, count)[0] == swapped[0] && RoundRobin(order, count)[0] == order[0];
    } else {
      forall other | Enumerates(other, nodes)
        ensures RoundRobin(other, count) == RoundRobin(order, count)
      {
        EnumerationLength(order, nodes);
        EnumerationLength(other, nodes);
        assert |order| == 1 ==> other[0] == order[0];
      }
    }
  }

  // ---------------------------------------------------------------- shares

  function Share(count: nat, n: nat, k: nat): set<int>
    requires n > 0
  {
    set p | 0 <= p < count && p % n == k
  }

  lemma MulLess(x: int, y: int, n: nat)
    requires x <= y
    ensures x * n <= y * n && (x - 1) * n == x * n - n
  {
  }

  lemma QuotientIs(a: int, n: int, q: int, r: int)
    requires n > 0 && 0 <= r < n && a == q * n + r
    ensures a / n == q && a % n == r
  {
    var q', r' := a / n, a % n;
    assert a == q' * n + r';
    if q > q' {
      MulLess(q' + 1, q, n);
    } else if q < q' {
      MulLess(q + 1, q', n);
    }
  }

  /** The partition of a task is the one whose number is congruent to the hash of its id. */
  lemma PartitionIsHash(cfg: Config, taskId: string)
    ensures var answer := PartitionOf(cfg, taskId);
            && (answer == Failure(MissingTaskId) <==> taskId == "")
            && (answer == Failure(NoPartitions) <==> taskId != "" && cfg.count == 0)
            && (answer.Success? <==> taskId != "" && cfg.count > 0)
            && (answer.Success? ==>
                  && 0 <= answer.value < cfg.count && (cfg.hash(taskId) - answer.value) % cfg.count == 0
                  && answer.value == cfg.hash(taskId) % cfg.count)
  {
    if taskId != "" && cfg.count > 0 {
      var h := cfg.hash(taskId);
      QuotientIs(h - h % cfg.count, cfg.count, h / cfg.count, 0);
    }
  }

  /** One more partition adds one to the share of the node whose turn it is. */
  lemma ShareStep(count: nat, n: nat, k: nat)
    requires k < n
    ensures (count + 1 - k + n - 1) / n == (count - k + n - 1) / n + if count % n == k then 1 else 0
  {
    var q, r := count / n, count % n;
    assert count == q * n + r;
    Rounded(q, n, r - k);
    Rounded(q, n, r - k + 1);
  }

  /** A number of partitions short of or past q full rounds takes as many rounds, rounded up. */
  lemma Rounded(q: int, n: int, d: int)
    requires n > 0 && -n < d <= n
    ensures (q * n + d + n - 1) / n == if d > 0 then q + 1 else q
  {
    if d > 0 {
      MulLess(q, q + 1, n);
      QuotientIs(q * n + d + n - 1, n, q + 1, d - 1);
    } else {
      QuotientIs(q * n + d + n - 1, n, q, d + n - 1);
    }
  }

  lemma {:induction false} ShareSize(count: nat, n: nat, k: nat)
    requires k < n
    ensures |Share(count, n, k)| == (count - k + n - 1) / n
  {
    if count == 0 {
      assert Share(0, n, k) == {};
      QuotientIs(n - 1 - k, n, 0, n - 1 - k);
    } else {
      ShareSize(count - 1, n, k);
      ShareStep(count - 1, n, k);
      var rest := Share(count - 1, n, k);
      assert Share(count, n, k) == if (count - 1) % n == k then rest + {count - 1} else rest;
    }
  }

  lemma OwnedIsShare(cfg: Config, m: ManagerState, order: seq<string>, k: nat)
    requires Balanced(cfg, m, order) && k < |order|
    ensures Owned(m, order[k]) == Share(cfg.count, |order|, k)
  {
    forall p | 0 <= p < cfg.count
      ensures order[p % |order|] == order[k] <==> p % |order| == k
    {
      var i := p % |order|;
      assert 0 <= i < |order|;
      if i < k { assert order[i] != order[k]; }
      if k < i { assert order[k] != order[i]; }
    }
  }

  /** The node at position k owns exactly (count - k + n - 1) div n partitions, whatever the order was. */
  lemma ExactShare(cfg: Config, m: ManagerState, order: seq<string>, k: nat)
    requires Balanced(cfg, m, order) && k < |order|
    ensures |Owned(m, order[k])| == (cfg.count - k + |order| - 1) / |order|
  {
    OwnedIsShare(cfg, m, order, k);
    ShareSize(cfg.count, |order|, k);
  }

  /** The same after every run of membership changes, for the order of the last one. */
  lemma ExactSharesAfterRun(cfg: Config, ops: seq<MemberOp>) returns (order: seq<string>)
    ensures var m := MemberRun(cfg, NO_NODES, ops);
            && Enumerates(order, m.nodes)
            && forall k :: 0 <= k < |order| ==> |Owned(m, order[k])| == (cfg.count - k + |order| - 1) / |order|
  {
    RunIsBalanced(cfg, ops);
    order :| Balanced(cfg, MemberRun(cfg, NO_NODES, ops), order);
    forall k | 0 <= k < |order|
      ensures |Owned(MemberRun(cfg, NO_NODES, ops), order[k])| == (cfg.count - k + |order| - 1) / |order|
    {
      ExactShare(cfg, MemberRun(cfg, NO_NODES, ops), order, k);
    }
  }

  lemma WithinOne(count: nat, n: nat, k: nat)
    requires k < n
    ensures count / n <= (count - k + n - 1) / n <= count / n + 1
  {
    var q, r := count / n, count % n;
    assert count == q * n + r && (q + 1) * n == q * n + n;
    if r <= k {
      QuotientIs(count - k + n - 1, n, q, r - k + n - 1);
    } else {
      QuotientIs(count - k + n - 1, n, q + 1, r - k - 1);
    }
  }

  /** After every run, no node owns two partitions more than another. */
  lemma {:induction false} SharesDifferByAtMostOne(cfg: Config, ops: seq<MemberOp>, a: string, b: string)
    requires a in MemberRun(cfg, NO_NODES, ops).nodes && b in MemberRun(cfg, NO_NODES, ops).nodes
    ensures var m := MemberRun(cfg, NO_NODES, ops); |Owned(m, a)| <= |Owned(m, b)| + 1
  {
    var m := MemberRun(cfg, NO_NODES, ops);
    RunIsBalanced(cfg, ops);
    var order :| Balanced(cfg, m, order);
    var i :| 0 <= i < |order| && order[i] == a;
    var j :| 0 <= j < |order| && order[j] == b;
    ExactShare(cfg, m, order, i);
    ExactShare(cfg, m, order, j);
    WithinOne(cfg.count, |order|, i);
    WithinOne(cfg.count, |order|, j);
  }

  function Total(m: ManagerState, order: seq<string>): nat {
    if order == [] then 0 else Total(m, order[..|order| - 1]) + |Owned(m, order[|order| - 1])|
  }

  function OwnedByAny(m: ManagerState, order: seq<string>): set<int> {
    set p | p in m.owners && m.owners[p] in order
  }

  lemma {:induction false} TotalCounts(m: ManagerState, order: seq<string>)
    requires forall i, j :: 0 <= i < j < |order| ==> order[i] != order[j]
    ensures Total(m, order) == |OwnedByAny(m, order)|
  {
    if order == [] {
      assert OwnedByAny(m, order) == {};
    } else {
      var rest, last := order[..|order| - 1], order[|order| - 1];
      TotalCounts(m, rest);
      assert order == rest + [last];
      assert OwnedByAny(m, order) == OwnedByAny(m, rest) + Owned(m, last);
      assert OwnedByAny(m, rest) !! Owned(m, last);
    }
  }

  /** After every run that leaves a node, the shares sum to the number of partitions. */
  lemma {:induction false} SharesSumToCount(cfg: Config, ops: seq<MemberOp>, order: seq<string>)
    requires MemberRun(cfg, NO_NODES, ops).nodes != {}
    requires Enumerates(order, MemberRun(cfg, NO_NODES, ops).nodes)
    ensures Total(MemberRun(cfg, NO_NODES, ops), order) == cfg.count
  {
    var m := MemberRun(cfg, NO_NODES, ops);
    RunIsBalanced(cfg, ops);
    var used :| Balanced(cfg, m, used);
    TotalCounts(m, order);
    assert forall i :: i in m.owners <==> 0 <= i < cfg.count by {
      var node :| node in m.nodes;
      assert node in used;
    }
    forall p | p in m.owners
      ensures m.owners[p] in order
    {
      assert used[p % |used|] in m.nodes;
    }
    assert OwnedByAny(m, order) == Share(cfg.count, 1, 0);
    ShareSize(cfg.count, 1, 0);
  }

  /** After every run that leaves a node, each partition has one owner, it is registered, and GetOwner names it. */
  lemma {:induction false} ExactlyOneOwner(cfg: Config, ops: seq<MemberOp>, p: nat)
    requires p < cfg.count && MemberRun(cfg, NO_NODES, ops).nodes != {}
    ensures var m := MemberRun(cfg, NO_NODES, ops);
            exists owner :: owner in m.nodes && OwnerOf(cfg, m, p) == Success(owner)
                            && forall node :: p in Owned(m, node) <==> node == owner
  {
    var m := MemberRun(cfg, NO_NODES, ops);
    RunIsBalanced(cfg, ops);
    var order :| Balanced(cfg, m, order);
    var node :| node in m.nodes;
    assert node in order;
    var owner := m.owners[p];
    assert owner == order[p % |order|];
    assert owner in m.nodes && OwnerOf(cfg, m, p) == Success(owner);
    assert forall node :: p in Owned(m, node) <==> node == owner;
  }

  /** After every run GetOwner fails exactly for numbers that are no partition, and for all when there is no node. */
  lemma {:induction false} NoOwnerIff(cfg: Config, ops: seq<MemberOp>, p: int)
    ensures var m := MemberRun(cfg, NO_NODES, ops);
            && (OwnerOf(cfg, m, p) == Failure(InvalidPartition) <==> !(0 <= p < cfg.count))
            && (OwnerOf(cfg, m, p) == Failure(NoOwner) <==> 0 <= p < cfg.count && m.nodes == {})
  {
    var m := MemberRun(cfg, NO_NODES, ops);
    RunIsBalanced(cfg, ops);
    var order :| Balanced(cfg, m, order);
    if m.nodes != {} {
      var node :| node in m.nodes;
      assert node in order;
    } else {
      EnumerationLength(order, m.nodes);
    }
  }

  // ---------------------------------------------------------------- the manager

  datatype NodeState = NodeState(nodeId: string, registeredAt: int, lastHeartbeat: int, healthy: bool)

  class DefaultManager {
    const hash: string -> nat
    const partitionCount: nat
    var nodes: map<string, NodeState>
    var partitionOwners: map<int, string>

    ghost function Cfg(): Config {
      Config(hash, partitionCount)
    }

    ghost function View(): ManagerState
      reads this
    {
      ManagerState(nodes.Keys, partitionOwners)
    }

    constructor (hash: string -> nat, partitionCount: int)
      ensures Cfg() == Config(hash, if partitionCount <= 0 then 10 else partitionCount)
      ensures View() == NO_NODES
    {
      this.hash := hash;
      this.partitionCount := if partitionCount <= 0 then 10 else partitionCount;
      nodes, partitionOwners := map[], map[];
    }

    method AssignPartition(taskId: string) returns (answer: Result<nat>)
      ensures answer == PartitionOf(Cfg(), taskId)
    {
      if taskId == "" {
        return Failure(MissingTaskId);
      }
      if partitionCount == 0 {
        return Failure(NoPartitions);
      }
      return Success(hash(taskId) % partitionCount);
    }

    method RegisterNode(nodeId: string, now: int) returns (answer: Result<()>, ghost order: seq<string>)
      modifies this
      ensures answer == CanRegister(old(View()), nodeId)
      ensures View() == MemberStep(Cfg(), old(View()), Register(nodeId, order))
      ensures answer.Success? ==>
                Enumerates(order, old(View()).nodes + {nodeId}) && View().nodes == old(View()).nodes + {nodeId}
    {
      order := [];
      if nodeId == "" {
        answer := Failure(MissingNodeId);
        return;
      }
      if nodeId in nodes {
        answer := Failure(NodeExists);
        return;
      }
      nodes := nodes[nodeId := NodeState(nodeId, now, now, true)];
      order := RebalancePartitions();
      answer := Success(());
    }

    method UnregisterNode(nodeId: string) returns (answer: Result<()>, ghost order: seq<string>)
      modifies this
      ensures answer == CanUnregister(old(View()), nodeId)
      ensures View() == MemberStep(Cfg(), old(View()), Unregister(nodeId, order))
      ensures answer.Success? ==>
                Enumerates(order, old(View()).nodes - {nodeId}) && View().nodes == old(View()).nodes - {nodeId}
    {
      order := [];
      if nodeId == "" {
        answer := Failure(MissingNodeId);
        return;
      }
      if nodeId !in nodes {
        answer := Failure(NodeNotFound);
        return;
      }
      nodes := nodes - {nodeId};
      order := RebalancePartitions();
      answer := Success(());
    }

    method Rebalance() returns (ghost order: seq<string>)
      modifies `partitionOwners
      ensures Enumerates(order, old(View()).nodes)
      ensures View() == MemberStep(Cfg(), old(View()), MemberOp.Rebalance(order))
    {
      order := RebalancePartitions();
    }

    /** Lists the nodes in whatever order the map yields them, then deals the partitions out in turn. */
    method RebalancePartitions() returns (ghost order: seq<string>)
      modifies `partitionOwners
      ensures Enumerates(order, View().nodes) && View() == Rebalanced(Cfg(), old(View()).nodes, order)
    {
      var nodeIds := GetNodes();
      order := nodeIds;
      if |nodes| == 0 {
        partitionOwners := map[];
        return;
      }
      var newOwners: map<int, string> := map[];
      for i := 0 to partitionCount
        invariant newOwners == RoundRobin(nodeIds, i)
      {
        RoundRobinStep(nodeIds, i);
        var nodeIdx := i % |nodeIds|;
        newOwners := newOwners[i := nodeIds[nodeIdx]];
      }
      partitionOwners := newOwners;
    }

    method GetNodes() returns (nodeIds: seq<string>)
      ensures Enumerates(nodeIds, nodes.Keys)
    {
      nodeIds := [];
      var rest := nodes.Keys;
      while rest != {}
        invariant rest <= nodes.Keys
        invariant Enumerates(nodeIds, nodes.Keys - rest)
        decreases rest
      {
        var nodeId :| nodeId in rest;
        rest := rest - {nodeId};
        ghost var before := nodeIds;
        nodeIds := nodeIds + [nodeId];
        assert forall node :: node in nodeIds <==> node in before || node == nodeId;
      }
    }

    method GetOwner(partitionId: int) returns (answer: Result<string>)
      ensures answer == OwnerOf(Cfg(), View(), partitionId)
    {
      if partitionId < 0 || partitionId >= partitionCount {
        return Failure(InvalidPartition);
      }
      if partitionId !in partitionOwners {
        return Failure(NoOwner);
      }
      return Success(partitionOwners[partitionId]);
    }

    /** Every partition of the node once, in the order the map yields them. */
    method GetPartitions(nodeId: string) returns (answer: Result<seq<int>>)
      ensures answer == Failure(MissingNodeId) <==> nodeId == ""
      ensures answer == Failure(NodeNotFound) <==> nodeId != "" && nodeId !in View().nodes
      ensures answer.Success? <==> nodeId != "" && nodeId in View().nodes
      ensures answer.Success? ==> multiset(answer.value) == multiset(Owned(View(), nodeId))
    {
      if nodeId == "" {
        return Failure(MissingNodeId);
      }
      if nodeId !in nodes {
        return Failure(NodeNotFound);
      }
      var partitions: seq<int> := [];
      var rest := partitionOwners.Items;
      ghost var done := {};
      while rest != {}
        invariant rest <= partitionOwners.Items
        invariant forall p :: p in done <==>
                    && p in partitionOwners && (p, partitionOwners[p]) !in rest && partitionOwners[p] == nodeId
        invariant multiset(partitions) == multiset(done)
        decreases rest
      {
        var pair :| pair in rest;
        rest := rest - {pair};
        var (partitionId, owner) := pair;
        if owner == nodeId {
          partitions := partitions + [partitionId];
          done := done + {partitionId};
        }
      }
      assert forall p :: p in Owned(View(), nodeId) ==> p in done;
      assert forall p :: p in done ==> p in Owned(View(), nodeId);
      assert done == Owned(View(), nodeId);
      return Success(partitions);
    }
  }
}
