/**
 The eviction pass: the budgets derived from the slack on low nodes, and the
 greedy, tier-ordered eviction from the target nodes, largest usage first.

 The eviction call itself is an oracle `evict: Pod -> bool` that says whether the
 call for that pod succeeds; the dry-run flag and the eviction API version only
 reach that call, so they are folded into the oracle.
 */
module Eviction {
  import opened Resources
  import opened Thresholds
  import opened Utilization
  import opened Ordering

  /** The three shared budgets (pods, millicores, bytes) and the number of pods evicted so far. */
  datatype Budget = Budget(pods: real, cpu: real, memory: real, evicted: nat) {
    predicate AnyLeft() {
      pods > 0.0 || cpu > 0.0 || memory > 0.0
    }
  }

  /** What an eviction pass over one node works on: that node's live usage and the shared budgets. */
  datatype Ledger = Ledger(usage: ResourceThresholds, budget: Budget)

  /** Eviction from the node may go on: it is still above target and some budget is positive. */
  predicate Open(l: Ledger, target: ResourceThresholds) {
    IsNodeAboveTargetUtilization(l.usage, target) && l.budget.AnyLeft()
  }

  function CpuRequest(p: Pod): nat {
    Quantity(p.requests, CPU)
  }

  function MemoryRequest(p: Pod): nat {
    Quantity(p.requests, Memory)
  }

  /** The bookkeeping after p was evicted from a node with capacity cap. */
  function Charge(l: Ledger, p: Pod, cap: ResourceList): (c: Ledger)
    requires PositiveCapacity(cap)
    ensures c.budget.evicted == l.budget.evicted + 1 && c.budget.pods == l.budget.pods - 1.0
    ensures c.budget.cpu <= l.budget.cpu && c.budget.memory <= l.budget.memory
    ensures Pods in c.usage && c.usage[Pods] < Percent(l.usage, Pods)
    ensures CPU in c.usage && c.usage[CPU] <= Percent(l.usage, CPU)
    ensures Memory in c.usage && c.usage[Memory] <= Percent(l.usage, Memory)
  {
    var cpu := CpuRequest(p) as real;
    var mem := MemoryRequest(p) as real;
    Ledger(
      l.usage[Pods := Percent(l.usage, Pods) - 100.0 / Quantity(cap, Pods) as real]
             [CPU := Percent(l.usage, CPU) - (cpu * 100.0) / Quantity(cap, CPU) as real]
             [Memory := Percent(l.usage, Memory) - mem / Quantity(cap, Memory) as real * 100.0],
      Budget(l.budget.pods - 1.0, l.budget.cpu - cpu, l.budget.memory - mem, l.budget.evicted + 1))
  }

  /** The loop over one tier's pods: a failed eviction changes nothing; the loop stops right after a success that closes the node. */
  function Drain(l: Ledger, pods: seq<Pod>, target: ResourceThresholds, cap: ResourceList, evict: Pod -> bool): (d: Ledger)
    requires PositiveCapacity(cap)
    ensures l.budget.evicted <= d.budget.evicted <= l.budget.evicted + Successes(pods, evict)
    decreases |pods|
  {
    if pods == [] then l
    else if !evict(pods[0]) then Drain(l, pods[1..], target, cap, evict)
    else
      var l' := Charge(l, pods[0], cap);
      if !Open(l', target) then l' else Drain(l', pods[1..], target, cap, evict)
  }

  /** Eviction from one tier of one node: nothing at all unless the node is open on entry. */
  function EvictTier(l: Ledger, pods: seq<Pod>, target: ResourceThresholds, cap: ResourceList, evict: Pod -> bool): (e: Ledger)
    requires PositiveCapacity(cap)
    ensures l.budget.evicted <= e.budget.evicted <= l.budget.evicted + Successes(pods, evict)
  {
    if Open(l, target) then Drain(l, pods, target, cap, evict) else l
  }

  /** Reference reading of a tier's eviction: each pod is tried only while the node is open. */
  function Gated(l: Ledger, pods: seq<Pod>, target: ResourceThresholds, cap: ResourceList, evict: Pod -> bool): Ledger
    requires PositiveCapacity(cap)
    decreases |pods|
  {
    if pods == [] || !Open(l, target) then l
    else Gated(if evict(pods[0]) then Charge(l, pods[0], cap) else l, pods[1..], target, cap, evict)
  }

  /** How many of the pods the oracle would let go. */
  function Successes(pods: seq<Pod>, evict: Pod -> bool): nat {
    if pods == [] then 0 else (if evict(pods[0]) then 1 else 0) + Successes(pods[1..], evict)
  }

  /** Once open, the loop with its single entry check and break agrees with the per-attempt gate. */
  lemma {:induction false} DrainIsGated(l: Ledger, pods: seq<Pod>, target: ResourceThresholds, cap: ResourceList, evict: Pod -> bool)
    requires PositiveCapacity(cap)
    requires Open(l, target)
    ensures Drain(l, pods, target, cap, evict) == Gated(l, pods, target, cap, evict)
    decreases |pods|
  {
    if pods != [] {
      if !evict(pods[0]) {
        DrainIsGated(l, pods[1..], target, cap, evict);
      } else {
        var l' := Charge(l, pods[0], cap);
        if Open(l', target) {
          DrainIsGated(l', pods[1..], target, cap, evict);
        }
      }
    }
  }

  /** Every eviction attempt of a tier happens while the node is above target and some budget is positive. */
  lemma EvictTierIsGated(l: Ledger, pods: seq<Pod>, target: ResourceThresholds, cap: ResourceList, evict: Pod -> bool)
    requires PositiveCapacity(cap)
    ensures EvictTier(l, pods, target, cap, evict) == Gated(l, pods, target, cap, evict)
  {
    if Open(l, target) {
      DrainIsGated(l, pods, target, cap, evict);
    }
  }

  /**
   The bookkeeping of a pass over a tier from l to l': at most one eviction per pod
   the oracle lets go; the pod budget falls by exactly the number evicted, the CPU
   and memory budgets never rise, and the node's pods usage falls by one pod's
   share per eviction.
   */
  predicate Accounted(l: Ledger, l': Ledger, pods: seq<Pod>, cap: ResourceList, evict: Pod -> bool)
    requires PositiveCapacity(cap)
  {
    && l.budget.evicted <= l'.budget.evicted <= l.budget.evicted + Successes(pods, evict)
    && l'.budget.pods == l.budget.pods - (l'.budget.evicted - l.budget.evicted) as real
    && l'.budget.cpu <= l.budget.cpu
    && l'.budget.memory <= l.budget.memory
    && Percent(l'.usage, Pods)
       == Percent(l.usage, Pods) - (l'.budget.evicted - l.budget.evicted) as real * (100.0 / Quantity(cap, Pods) as real)
  }

  /** The bookkeeping of a gated tier. */
  lemma {:induction false} GatedAccounting(l: Ledger, pods: seq<Pod>, target: ResourceThresholds, cap: ResourceList, evict: Pod -> bool)
    requires PositiveCapacity(cap)
    ensures Accounted(l, Gated(l, pods, target, cap, evict), pods, cap, evict)
    decreases |pods|
  {
    if pods != [] && Open(l, target) {
      var next := if evict(pods[0]) then Charge(l, pods[0], cap) else l;
      GatedAccounting(next, pods[1..], target, cap, evict);
      var l' := Gated(next, pods[1..], target, cap, evict);
      assert Gated(l, pods, target, cap, evict) == l';
      var share := 100.0 / Quantity(cap, Pods) as real;
      var k := l'.budget.evicted - next.budget.evicted;
      if evict(pods[0]) {
        assert Percent(next.usage, Pods) == Percent(l.usage, Pods) - share;
        assert (k + 1) as real * share == k as real * share + share;
      }
    }
  }

  /** The same bookkeeping for the loop as the source writes it. */
  lemma EvictTierAccounting(l: Ledger, pods: seq<Pod>, target: ResourceThresholds, cap: ResourceList, evict: Pod -> bool)
    requires PositiveCapacity(cap)
    ensures Accounted(l, EvictTier(l, pods, target, cap, evict), pods, cap, evict)
  {
    EvictTierIsGated(l, pods, target, cap, evict);
    GatedAccounting(l, pods, target, cap, evict);
  }

  /** Eviction from one target node: best-effort, then burstable, then guaranteed, on one live usage map. */
  function EvictNode(nu: NodeUsage, b: Budget, target: ResourceThresholds, evict: Pod -> bool): (e: Ledger)
    requires PositiveCapacity(EffectiveCapacity(nu.node))
  {
    var cap := EffectiveCapacity(nu.node);
    var l1 := EvictTier(Ledger(nu.usage, b), nu.bePods, target, cap, evict);
    var l2 := EvictTier(l1, nu.bPods, target, cap, evict);
    EvictTier(l2, nu.gPods, target, cap, evict)
  }

  /**
   The tier gate: a node that is closed on arrival loses nothing, and a node that
   the best-effort tier leaves closed loses no burstable or guaranteed pod.
   */
  lemma TierOrderGate(nu: NodeUsage, b: Budget, target: ResourceThresholds, evict: Pod -> bool)
    requires PositiveCapacity(EffectiveCapacity(nu.node))
    ensures !Open(Ledger(nu.usage, b), target) ==> EvictNode(nu, b, target, evict) == Ledger(nu.usage, b)
    ensures var l1 := EvictTier(Ledger(nu.usage, b), nu.bePods, target, EffectiveCapacity(nu.node), evict);
      !Open(l1, target) ==> EvictNode(nu, b, target, evict) == l1
  {
  }

  /** How many pods of a node's three evictable tiers the oracle would let go. */
  function NodeSuccesses(nu: NodeUsage, evict: Pod -> bool): nat {
    Successes(nu.bePods, evict) + Successes(nu.bPods, evict) + Successes(nu.gPods, evict)
  }

  /** The bookkeeping of one node's three tiers. */
  lemma EvictNodeAccounting(nu: NodeUsage, b: Budget, target: ResourceThresholds, evict: Pod -> bool)
    requires PositiveCapacity(EffectiveCapacity(nu.node))
    ensures var b' := EvictNode(nu, b, target, evict).budget;
      && b.evicted <= b'.evicted <= b.evicted + NodeSuccesses(nu, evict)
      && b'.pods == b.pods - (b'.evicted - b.evicted) as real
      && b'.cpu <= b.cpu
      && b'.memory <= b.memory
  {
    var cap := EffectiveCapacity(nu.node);
    var l0 := Ledger(nu.usage, b);
    var l1 := EvictTier(l0, nu.bePods, target, cap, evict);
    var l2 := EvictTier(l1, nu.bPods, target, cap, evict);
    EvictTierAccounting(l0, nu.bePods, target, cap, evict);
    EvictTierAccounting(l1, nu.bPods, target, cap, evict);
    EvictTierAccounting(l2, nu.gPods, target, cap, evict);
  }

  /** Every node has capacities the eviction bookkeeping can divide by. */
  predicate AllMeasurable(nodes: seq<NodeUsage>) {
    forall n | n in nodes :: PositiveCapacity(EffectiveCapacity(n.node))
  }

  /** The state after a pass over the target nodes: their usage as left by eviction, and the budgets. */
  datatype Pass = Pass(nodes: seq<NodeUsage>, budget: Budget)

  /** The eviction pass over the target nodes in the order given. */
  function EvictAcross(nodes: seq<NodeUsage>, b: Budget, target: ResourceThresholds, evict: Pod -> bool): (p: Pass)
    requires AllMeasurable(nodes)
    ensures |p.nodes| == |nodes|
  {
    if nodes == [] then Pass([], b)
    else
      var last := nodes[|nodes| - 1];
      assert last in nodes;
      var p := EvictAcross(nodes[..|nodes| - 1], b, target, evict);
      var l := EvictNode(last, p.budget, target, evict);
      Pass(p.nodes + [last.(usage := l.usage)], l.budget)
  }

  /** How many pods of all the nodes' evictable tiers the oracle would let go. */
  function AllSuccesses(nodes: seq<NodeUsage>, evict: Pod -> bool): nat {
    if nodes == [] then 0
    else AllSuccesses(nodes[..|nodes| - 1], evict) + NodeSuccesses(nodes[|nodes| - 1], evict)
  }

  /** Eviction only touches usage: every node keeps its name, capacities and tiers, in the same place. */
  lemma {:induction false} EvictAcrossKeepsNodes(nodes: seq<NodeUsage>, b: Budget, target: ResourceThresholds, evict: Pod -> bool)
    requires AllMeasurable(nodes)
    ensures var p := EvictAcross(nodes, b, target, evict);
      && |p.nodes| == |nodes|
      && forall i | 0 <= i < |nodes| :: p.nodes[i] == nodes[i].(usage := p.nodes[i].usage)
  {
    if nodes != [] {
      var init := nodes[..|nodes| - 1];
      var last := nodes[|nodes| - 1];
      assert AllMeasurable(init) by {
        forall n | n in init ensures n in nodes { }
      }
      assert last in nodes;
      EvictAcrossKeepsNodes(init, b, target, evict);
      var prev := EvictAcross(init, b, target, evict);
      var l := EvictNode(last, prev.budget, target, evict);
      var p := EvictAcross(nodes, b, target, evict);
      assert p.nodes == prev.nodes + [last.(usage := l.usage)];
      forall i | 0 <= i < |nodes| ensures p.nodes[i] == nodes[i].(usage := p.nodes[i].usage) {
        if i < |init| {
          assert p.nodes[i] == prev.nodes[i] && nodes[i] == init[i];
        } else {
          assert i == |prev.nodes|;
          assert nodes[i] == last;
          assert p.nodes[i] == last.(usage := l.usage);
        }
      }
    }
  }

  /**
   The bookkeeping of the whole pass: at most every pod the oracle lets go is
   evicted, the pod budget falls by exactly the number evicted, and the CPU and
   memory budgets never rise.
   */
  lemma {:induction false} EvictAcrossAccounting(nodes: seq<NodeUsage>, b: Budget, target: ResourceThresholds, evict: Pod -> bool)
    requires AllMeasurable(nodes)
    ensures var p := EvictAcross(nodes, b, target, evict);
      && b.evicted <= p.budget.evicted <= b.evicted + AllSuccesses(nodes, evict)
      && p.budget.pods == b.pods - (p.budget.evicted - b.evicted) as real
      && p.budget.cpu <= b.cpu
      && p.budget.memory <= b.memory
  {
    if nodes != [] {
      var n := |nodes| - 1;
      EvictAcrossStep(nodes, n, b, target, evict);
      EvictAcrossAccounting(nodes[..n], b, target, evict);
      assert nodes[..n + 1] == nodes;
      EvictNodeAccounting(nodes[n], EvictAcross(nodes[..n], b, target, evict).budget, target, evict);
    }
  }

  /** With every budget already spent, the pass evicts nothing and changes no usage. */
  lemma {:induction false} NoBudgetNoEviction(nodes: seq<NodeUsage>, b: Budget, target: ResourceThresholds, evict: Pod -> bool)
    requires AllMeasurable(nodes)
    requires !b.AnyLeft()
    ensures EvictAcross(nodes, b, target, evict) == Pass(nodes, b)
  {
    if nodes != [] {
      var init := nodes[..|nodes| - 1];
      var last := nodes[|nodes| - 1];
      assert AllMeasurable(init) by {
        forall n | n in init ensures n in nodes { }
      }
      assert last in nodes;
      NoBudgetNoEviction(init, b, target, evict);
      assert nodes == init + [last];
    }
  }

  /** The amount of a capacity that a gap of some percent stands for. */
  function Share(gap: real, quantity: nat): real {
    (gap * quantity as real) / 100.0
  }

  /** What one low node adds to the budget for r: the gap to the target threshold, scaled to its effective capacity. */
  function SlackOf(n: NodeUsage, target: ResourceThresholds, r: Resource): real {
    Share(Percent(target, r) - Percent(n.usage, r), Quantity(EffectiveCapacity(n.node), r))
  }

  /** The budget for r over the low nodes; CPU and memory count only when the target thresholds name them. */
  function SlackSum(lowNodes: seq<NodeUsage>, target: ResourceThresholds, r: Resource): real {
    if lowNodes == [] then 0.0
    else
      SlackSum(lowNodes[..|lowNodes| - 1], target, r)
      + (if r == Pods || r in target then SlackOf(lowNodes[|lowNodes| - 1], target, r) else 0.0)
  }

  /** The initial budgets, and no pod evicted yet. */
  function Slack(lowNodes: seq<NodeUsage>, target: ResourceThresholds): Budget {
    Budget(SlackSum(lowNodes, target, Pods), SlackSum(lowNodes, target, CPU), SlackSum(lowNodes, target, Memory), 0)
  }

  /** Without a CPU (memory) target there is no CPU (memory) budget at all. */
  lemma {:induction false} SlackNeedsTarget(lowNodes: seq<NodeUsage>, target: ResourceThresholds)
    ensures CPU !in target ==> Slack(lowNodes, target).cpu == 0.0
    ensures Memory !in target ==> Slack(lowNodes, target).memory == 0.0
  {
    if lowNodes != [] {
      SlackNeedsTarget(lowNodes[..|lowNodes| - 1], target);
    }
  }

  /** A non-negative gap stands for a non-negative amount of capacity. */
  lemma SlackTermNonNegative(gap: real, quantity: nat)
    requires gap >= 0.0
    ensures Share(gap, quantity) >= 0.0
  {
  }

  /** Nodes whose pods usage is at most the target pods threshold leave a non-negative pod budget. */
  lemma {:induction false} PodSlackNonNegative(lowNodes: seq<NodeUsage>, target: ResourceThresholds)
    requires forall n | n in lowNodes :: Percent(n.usage, Pods) <= Percent(target, Pods)
    ensures SlackSum(lowNodes, target, Pods) >= 0.0
  {
    if lowNodes != [] {
      var init := lowNodes[..|lowNodes| - 1];
      var n := lowNodes[|lowNodes| - 1];
      assert n in lowNodes;
      assert forall m | m in init :: m in lowNodes;
      PodSlackNonNegative(init, target);
      SlackTermNonNegative(Percent(target, Pods) - Percent(n.usage, Pods), Quantity(EffectiveCapacity(n.node), Pods));
    }
  }

  /**
   When every low node's pods usage is at most the low pods threshold, and that
   threshold is at most the target one, the pod budget is not negative.
   */
  lemma LowNodesLeavePodRoom(lowNodes: seq<NodeUsage>, low: ResourceThresholds, target: ResourceThresholds)
    requires Pods in low && Pods in target && low[Pods] <= target[Pods]
    requires forall n | n in lowNodes :: Pods in n.usage && IsNodeWithLowUtilization(n.usage, low)
    ensures Slack(lowNodes, target).pods >= 0.0
  {
    forall n | n in lowNodes ensures Percent(n.usage, Pods) <= Percent(target, Pods) {
      assert n.usage[Pods] <= low[Pods];
    }
    PodSlackNonNegative(lowNodes, target);
  }

  /** The shared budgets and counter, and the usage map of the node being drained. */
  class Evictor {
    var usage: ResourceThresholds
    var totalPods: real
    var totalCpu: real
    var totalMem: real
    var podsEvicted: nat

    function State(): Ledger
      reads this
    {
      Ledger(usage, Budget(totalPods, totalCpu, totalMem, podsEvicted))
    }

    constructor (b: Budget)
      ensures State() == Ledger(map[], b)
    {
      usage := map[];
      totalPods, totalCpu, totalMem, podsEvicted := b.pods, b.cpu, b.memory, b.evicted;
    }

    /** Tries the pods of one tier in order while the node is above target and some budget is positive. */
    method EvictPods(inputPods: seq<Pod>, target: ResourceThresholds, cap: ResourceList, evict: Pod -> bool)
      requires PositiveCapacity(cap)
      modifies this
      ensures State() == EvictTier(old(State()), inputPods, target, cap, evict)
    {
      if IsNodeAboveTargetUtilization(usage, target) && (totalPods > 0.0 || totalCpu > 0.0 || totalMem > 0.0) {
        var i := 0;
        while i < |inputPods|
          invariant 0 <= i <= |inputPods|
          invariant Open(State(), target)
          invariant Drain(State(), inputPods[i..], target, cap, evict) == Drain(old(State()), inputPods, target, cap, evict)
        {
          var pod := inputPods[i];
          assert inputPods[i..][0] == pod && inputPods[i..][1..] == inputPods[i + 1..];
          var success := evict(pod);
          if success {
            RecordEviction(pod, cap);
            if !IsNodeAboveTargetUtilization(usage, target) || (totalPods <= 0.0 && totalCpu <= 0.0 && totalMem <= 0.0) {
              break;
            }
          }
          i := i + 1;
        }
      }
    }

    /** The bookkeeping of one successful eviction: the counter, the node's usage and the three budgets. */
    method RecordEviction(pod: Pod, cap: ResourceList)
      requires PositiveCapacity(cap)
      modifies this
      ensures State() == Charge(old(State()), pod, cap)
    {
      var onePodPercentage := 100.0 / Quantity(cap, Pods) as real;
      var cUsage := CpuRequest(pod);
      var mUsage := MemoryRequest(pod);
      var nodeUsage := usage;
      podsEvicted := podsEvicted + 1;
      nodeUsage := nodeUsage[Pods := Percent(nodeUsage, Pods) - onePodPercentage];
      totalPods := totalPods - 1.0;
      totalCpu := totalCpu - cUsage as real;
      nodeUsage := nodeUsage[CPU := Percent(nodeUsage, CPU) - (cUsage as real * 100.0) / Quantity(cap, CPU) as real];
      totalMem := totalMem - mUsage as real;
      nodeUsage := nodeUsage[Memory := Percent(nodeUsage, Memory) - mUsage as real / Quantity(cap, Memory) as real * 100.0];
      usage := nodeUsage;
    }

    /** The body of the node loop: loads the node's usage, then evicts best-effort, burstable and guaranteed pods. */
    method DrainNode(node: NodeUsage, target: ResourceThresholds, evict: Pod -> bool)
      requires PositiveCapacity(EffectiveCapacity(node.node))
      modifies this
      ensures State() == EvictNode(node, old(State()).budget, target, evict)
    {
      var nodeCapacity := EffectiveCapacity(node.node);
      usage := node.usage;
      EvictPods(node.bePods, target, nodeCapacity, evict);
      EvictPods(node.bPods, target, nodeCapacity, evict);
      EvictPods(node.gPods, target, nodeCapacity, evict);
    }
  }

  /** A prefix of measurable nodes is measurable. */
  lemma MeasurablePrefix(nodes: seq<NodeUsage>, i: nat)
    requires AllMeasurable(nodes) && i <= |nodes|
    ensures AllMeasurable(nodes[..i])
  {
    forall n | n in nodes[..i] ensures n in nodes { }
  }

  /** The budget loop: accumulates each low node's slack, scaled to its effective capacity. */
  method SumSlack(lowNodes: seq<NodeUsage>, target: ResourceThresholds) returns (totalPods: real, totalCpu: real, totalMem: real)
    ensures Budget(totalPods, totalCpu, totalMem, 0) == Slack(lowNodes, target)
  {
    totalPods, totalCpu, totalMem := 0.0, 0.0, 0.0;
    var k := 0;
    while k < |lowNodes|
      invariant 0 <= k <= |lowNodes|
      invariant totalPods == SlackSum(lowNodes[..k], target, Pods)
      invariant totalCpu == SlackSum(lowNodes[..k], target, CPU)
      invariant totalMem == SlackSum(lowNodes[..k], target, Memory)
    {
      var node := lowNodes[k];
      SlackStep(lowNodes, k, target);
      var nodeCapacity := EffectiveCapacity(node.node);
      var podsPercentage := Percent(target, Pods) - Percent(node.usage, Pods);
      totalPods := totalPods + (podsPercentage * Quantity(nodeCapacity, Pods) as real) / 100.0;
      if CPU in target {
        var cpuPercentage := target[CPU] - Percent(node.usage, CPU);
        totalCpu := totalCpu + (cpuPercentage * Quantity(nodeCapacity, CPU) as real) / 100.0;
      }
      if Memory in target {
        var memPercentage := target[Memory] - Percent(node.usage, Memory);
        totalMem := totalMem + (memPercentage * Quantity(nodeCapacity, Memory) as real) / 100.0;
      }
      k := k + 1;
    }
    assert lowNodes[..k] == lowNodes;
  }

  /** One more low node adds its slack to each budget it counts towards. */
  lemma SlackStep(lowNodes: seq<NodeUsage>, k: nat, target: ResourceThresholds)
    requires k < |lowNodes|
    ensures var n := lowNodes[k];
      && SlackSum(lowNodes[..k + 1], target, Pods) == SlackSum(lowNodes[..k], target, Pods) + SlackOf(n, target, Pods)
      && SlackSum(lowNodes[..k + 1], target, CPU)
         == SlackSum(lowNodes[..k], target, CPU) + (if CPU in target then SlackOf(n, target, CPU) else 0.0)
      && SlackSum(lowNodes[..k + 1], target, Memory)
         == SlackSum(lowNodes[..k], target, Memory) + (if Memory in target then SlackOf(n, target, Memory) else 0.0)
  {
    assert lowNodes[..k + 1][..k] == lowNodes[..k];
  }

  /**
   Sorts the target nodes, derives the budgets from the low nodes, then drains
   each target node in turn, tier by tier, writing its final usage back.
   Returns the number of pods evicted.
   */
  method EvictPodsFromTargetNodes(targetNodes: array<NodeUsage>, lowNodes: seq<NodeUsage>,
                                  target: ResourceThresholds, evict: Pod -> bool)
    returns (podsEvicted: nat)
    requires AllMeasurable(targetNodes[..])
    modifies targetNodes
    ensures exists order: seq<NodeUsage> ::
      && multiset(order) == old(multiset(targetNodes[..]))
      && NonIncreasing(order)
      && AllMeasurable(order)
      && EvictAcross(order, Slack(lowNodes, target), target, evict).nodes == targetNodes[..]
      && EvictAcross(order, Slack(lowNodes, target), target, evict).budget.evicted == podsEvicted
  {
    SortNodesByUsage(targetNodes);
    ghost var order := targetNodes[..];
    assert AllMeasurable(order) by {
      forall n | n in order ensures PositiveCapacity(EffectiveCapacity(n.node)) {
        assert n in multiset(order);
        assert n in old(targetNodes[..]);
      }
    }

    var totalPods, totalCpu, totalMem := SumSlack(lowNodes, target);

    podsEvicted := EvictSortedNodes(targetNodes, Budget(totalPods, totalCpu, totalMem, 0), target, evict);
    assert EvictAcross(order, Slack(lowNodes, target), target, evict).nodes == targetNodes[..];
  }

  /** The node loop: drains each node in array order, tier by tier, and writes its final usage back. */
  method EvictSortedNodes(targetNodes: array<NodeUsage>, b: Budget, target: ResourceThresholds, evict: Pod -> bool)
    returns (podsEvicted: nat)
    requires AllMeasurable(targetNodes[..])
    modifies targetNodes
    ensures EvictAcross(old(targetNodes[..]), b, target, evict).nodes == targetNodes[..]
    ensures EvictAcross(old(targetNodes[..]), b, target, evict).budget.evicted == podsEvicted
  {
    ghost var order := targetNodes[..];
    var ev := new Evictor(b);
    var i := 0;
    while i < targetNodes.Length
      invariant 0 <= i <= targetNodes.Length
      invariant forall j | i <= j < targetNodes.Length :: targetNodes[j] == order[j]
      invariant AllMeasurable(order)
      invariant AllMeasurable(order[..i])
      invariant EvictAcross(order[..i], b, target, evict).nodes == targetNodes[..i]
      invariant EvictAcross(order[..i], b, target, evict).budget == ev.State().budget
    {
      var node := targetNodes[i];
      ghost var before := targetNodes[..];
      assert node == order[i] && PositiveCapacity(EffectiveCapacity(node.node)) by {
        EvictAcrossStep(order, i, b, target, evict);
      }
      ev.DrainNode(node, target, evict);
      var updated := node.(usage := ev.usage);
      targetNodes[i] := updated;
      WriteBackStep(order, i, b, target, evict, before, ev.State());
      assert targetNodes[..] == before[i := updated];
      i := i + 1;
    }
    assert i == targetNodes.Length;
    assert order[..i] == order;
    assert targetNodes[..i] == targetNodes[..];
    assert old(targetNodes[..]) == order;
    podsEvicted := ev.podsEvicted;
  }

  /** Writing a drained node's usage back into slot i extends the pass by that node. */
  lemma WriteBackStep(order: seq<NodeUsage>, i: nat, b: Budget, target: ResourceThresholds, evict: Pod -> bool,
                      before: seq<NodeUsage>, l: Ledger)
    requires i < |order| == |before| && AllMeasurable(order)
    requires AllMeasurable(order[..i]) && EvictAcross(order[..i], b, target, evict).nodes == before[..i]
    requires PositiveCapacity(EffectiveCapacity(order[i].node))
    requires l == EvictNode(order[i], EvictAcross(order[..i], b, target, evict).budget, target, evict)
    ensures AllMeasurable(order[..i + 1])
    ensures EvictAcross(order[..i + 1], b, target, evict).nodes == before[i := order[i].(usage := l.usage)][..i + 1]
    ensures EvictAcross(order[..i + 1], b, target, evict).budget == l.budget
  {
    EvictAcrossStep(order, i, b, target, evict);
    assert before[i := order[i].(usage := l.usage)][..i + 1] == before[..i] + [order[i].(usage := l.usage)];
  }

  /** One more node of the pass. */
  lemma EvictAcrossStep(nodes: seq<NodeUsage>, i: nat, b: Budget, target: ResourceThresholds, evict: Pod -> bool)
    requires i < |nodes| && AllMeasurable(nodes)
    ensures AllMeasurable(nodes[..i]) && AllMeasurable(nodes[..i + 1])
    ensures PositiveCapacity(EffectiveCapacity(nodes[i].node))
    ensures var p := EvictAcross(nodes[..i], b, target, evict);
            var l := EvictNode(nodes[i], p.budget, target, evict);
            EvictAcross(nodes[..i + 1], b, target, evict) == Pass(p.nodes + [nodes[i].(usage := l.usage)], l.budget)
  {
    MeasurablePrefix(nodes, i);
    MeasurablePrefix(nodes, i + 1);
    assert nodes[i] in nodes;
    assert nodes[..i + 1][..i] == nodes[..i];
  }
}
