/**
 The strategy entry point: validate both threshold maps, classify the listed
 nodes, give up early on the guard conditions, and otherwise run the eviction
 pass over the target nodes.

 Listing the pods of each node is cluster I/O; its result is the input npm, one
 entry per node whose listing succeeded, alongside the full node list.
 */
module Strategy {
  import opened Resources
  import opened Thresholds
  import opened Utilization
  import opened Classification
  import opened Ordering
  import opened Eviction

  /** Where a run of the strategy ends: one of the early returns, or eviction with the number of pods evicted. */
  datatype Outcome =
    | Disabled
    | InvalidThresholds
    | InvalidTargetThresholds
    | NoLowNodes
    | TooFewLowNodes
    | AllNodesLow
    | NoTargetNodes
    | Evicted(count: nat)

  /** Every snapshot of a measurable listing can be charged against its node's capacity. */
  lemma {:induction false} SnapshotsMeasurable(npm: seq<NodePods>)
    requires Measurable(npm)
    ensures AllMeasurable(Snapshots(npm))
  {
    if npm != [] {
      var init := npm[..|npm| - 1];
      assert Measurable(init);
      SnapshotsMeasurable(init);
    }
  }

  /** So can every node of each class. */
  lemma ClassMeasurable(npm: seq<NodePods>, low: ResourceThresholds, target: ResourceThresholds, c: NodeClass)
    requires Measurable(npm)
    ensures AllMeasurable(InClass(npm, low, target, c))
  {
    SnapshotsMeasurable(npm);
    forall s | s in InClass(npm, low, target, c) ensures PositiveCapacity(EffectiveCapacity(s.node)) {
      InClassMembers(npm, low, target, c, s);
    }
  }

  /**
   One run of the strategy. Each early return is taken exactly when its guard is
   the first to hold, and eviction happens exactly when the strategy is enabled,
   both threshold maps are valid, and the low nodes are non-empty, at least
   numberOfNodes many, fewer than all nodes, and there is a target node. The
   number evicted is that of the eviction pass over the target nodes in some
   order of non-increasing summed usage, with the budgets the low nodes leave.
   */
  method LowNodeUtilization(enabled: bool, low: ResourceThresholds, target: ResourceThresholds, numberOfNodes: int,
                            nodes: seq<Node>, npm: seq<NodePods>, evict: Pod -> bool)
    returns (r: Outcome)
    requires Measurable(npm)
    ensures r == Disabled <==> !enabled
    ensures r == InvalidThresholds <==> enabled && !(CPU in low || Memory in low || Pods in low)
    ensures r == InvalidTargetThresholds <==> enabled && (CPU in low || Memory in low || Pods in low) && Pods !in target
    ensures var lowNodes := InClass(npm, low, target, LowNode);
            var ok := enabled && (CPU in low || Memory in low || Pods in low) && Pods in target;
            && (r == NoLowNodes <==> ok && |lowNodes| == 0)
            && (r == TooFewLowNodes <==> ok && |lowNodes| > 0 && |lowNodes| < numberOfNodes)
            && (r == AllNodesLow <==> ok && |lowNodes| > 0 && |lowNodes| >= numberOfNodes && |lowNodes| == |nodes|)
            && (r == NoTargetNodes <==>
                  ok && |lowNodes| > 0 && |lowNodes| >= numberOfNodes && |lowNodes| != |nodes|
                  && |InClass(npm, low, target, TargetNode)| == 0)
    ensures var lowNodes := InClass(npm, low, target, LowNode);
            var targetNodes := InClass(npm, low, target, TargetNode);
            r.Evicted? <==>
              && enabled
              && (CPU in low || Memory in low || Pods in low)
              && Pods in target
              && |lowNodes| > 0
              && |lowNodes| >= numberOfNodes
              && |lowNodes| != |nodes|
              && |targetNodes| > 0
    ensures r.Evicted? ==>
              var lowNodes := InClass(npm, low, target, LowNode);
              var targetNodes := InClass(npm, low, target, TargetNode);
              exists order: seq<NodeUsage> ::
                && multiset(order) == multiset(targetNodes)
                && NonIncreasing(order)
                && AllMeasurable(order)
                && r.count == EvictAcross(order, Slack(lowNodes, target), target, evict).budget.evicted
  {
    if !enabled {
      return Disabled;
    }
    if !ValidateThresholds(low) {
      return InvalidThresholds;
    }
    if !ValidateTargetThresholds(target) {
      return InvalidTargetThresholds;
    }
    var lowNodes, targetNodes, _ := ClassifyNodes(npm, low, target);
    if |lowNodes| == 0 {
      return NoLowNodes;
    } else if |lowNodes| < numberOfNodes {
      return TooFewLowNodes;
    } else if |lowNodes| == |nodes| {
      return AllNodesLow;
    } else if |targetNodes| == 0 {
      return NoTargetNodes;
    }
    ClassMeasurable(npm, low, target, TargetNode);
    var sorted := new NodeUsage[|targetNodes|](i requires 0 <= i < |targetNodes| => targetNodes[i]);
    assert sorted[..] == targetNodes;
    var count := EvictPodsFromTargetNodes(sorted, lowNodes, target, evict);
    return Evicted(count);
  }

  /**
   When every listed node came from the node list, the "all nodes are low" guard
   never changes whether eviction happens: if all nodes are low, no node is left
   to be a target. It only selects which early return is taken.
   */
  lemma AllLowLeavesNoTarget(nodes: seq<Node>, npm: seq<NodePods>, low: ResourceThresholds, target: ResourceThresholds)
    requires Measurable(npm)
    requires |npm| <= |nodes|
    ensures |InClass(npm, low, target, LowNode)| == |nodes| ==> |InClass(npm, low, target, TargetNode)| == 0
    ensures |InClass(npm, low, target, TargetNode)| > 0 ==> |InClass(npm, low, target, LowNode)| < |nodes|
  {
    ClassesPartitionNodes(npm, low, target);
  }

  // A worked run: node A is nearly idle, node B is busy; both offer 2000 millicores,
  // 4 GiB and 10 pods. The pods that carry the load have no creator reference, so
  // they are never evictable; B's five best-effort pods request nothing.

  const Mi: nat := 1048576
  const Gi: nat := 1073741824

  function ScenarioNode(name: string): Node {
    Node(name, map[], map[CPU := 2000, Memory := 4 * Gi, Pods := 10])
  }

  function ScenarioLow(): ResourceThresholds {
    map[CPU := 20.0, Memory := 20.0, Pods := 30.0]
  }

  function ScenarioTarget(): ResourceThresholds {
    map[CPU := 50.0, Memory := 50.0, Pods := 50.0]
  }

  function SystemPod(name: string, cpu: nat, memory: nat): Pod {
    Pod(name, false, false, false, false, false, Guaranteed, map[CPU := cpu, Memory := memory], false)
  }

  function IdlePod(name: string): Pod {
    Pod(name, false, false, true, false, false, BestEffort, map[], false)
  }

  function PodsOfA(): seq<Pod> {
    [SystemPod("a1", 100, 256 * Mi), SystemPod("a2", 100, 256 * Mi)]
  }

  function SystemPodsOfB(): seq<Pod> {
    [SystemPod("b1", 600, Gi), SystemPod("b2", 600, Gi), SystemPod("b3", 600, 1536 * Mi)]
  }

  function IdlePodsOfB(): seq<Pod> {
    [IdlePod("b4"), IdlePod("b5"), IdlePod("b6"), IdlePod("b7"), IdlePod("b8")]
  }

  function NodeA(): NodeUsage {
    Snapshot(ScenarioNode("A"), PodsOfA())
  }

  function NodeB(): NodeUsage {
    Snapshot(ScenarioNode("B"), SystemPodsOfB() + IdlePodsOfB())
  }

  /** A's two pods use 10% of its CPU, 12.5% of its memory and 20% of its pod capacity; both are non-removable. */
  lemma ScenarioSnapshotA()
    ensures NodeA() == NodeUsage(ScenarioNode("A"), map[CPU := 10.0, Memory := 12.5, Pods := 20.0], PodsOfA(), [], [], [])
  {
    var pods := PodsOfA();
    InTierUniform(pods, NonRemovable, BestEffortTier);
    InTierUniform(pods, NonRemovable, BurstableTier);
    InTierUniform(pods, NonRemovable, GuaranteedTier);
    assert pods == [pods[0]] + [pods[1]];
    RequestedAppend([pods[0]], [pods[1]], CPU);
    RequestedAppend([pods[0]], [pods[1]], Memory);
    assert Requested([pods[0]], CPU) == 100 && Requested([pods[1]], CPU) == 100;
    assert Requested([pods[0]], Memory) == 256 * Mi && Requested([pods[1]], Memory) == 256 * Mi;
  }

  /** B's loaded pods are all non-removable. */
  lemma SystemPodsOfBTiers()
    ensures var sys := SystemPodsOfB();
            && InTier(sys, NonRemovable) == sys && InTier(sys, BestEffortTier) == []
            && InTier(sys, BurstableTier) == [] && InTier(sys, GuaranteedTier) == []
  {
    var sys := SystemPodsOfB();
    assert forall p | p in sys :: TierOf(p) == NonRemovable;
    InTierUniform(sys, NonRemovable, BestEffortTier);
    InTierUniform(sys, NonRemovable, BurstableTier);
    InTierUniform(sys, NonRemovable, GuaranteedTier);
  }

  /** B's idle pods are all removable best-effort pods. */
  lemma IdlePodsOfBTiers()
    ensures var idle := IdlePodsOfB();
            && InTier(idle, NonRemovable) == [] && InTier(idle, BestEffortTier) == idle
            && InTier(idle, BurstableTier) == [] && InTier(idle, GuaranteedTier) == []
  {
    var idle := IdlePodsOfB();
    assert forall p | p in idle :: TierOf(p) == BestEffortTier;
    InTierUniform(idle, BestEffortTier, NonRemovable);
    InTierUniform(idle, BestEffortTier, BurstableTier);
    InTierUniform(idle, BestEffortTier, GuaranteedTier);
  }

  /** B's loaded pods form its non-removable tier and its idle pods its best-effort tier. */
  lemma ScenarioTiersB()
    ensures var pods := SystemPodsOfB() + IdlePodsOfB();
            && InTier(pods, NonRemovable) == SystemPodsOfB() && InTier(pods, BestEffortTier) == IdlePodsOfB()
            && InTier(pods, BurstableTier) == [] && InTier(pods, GuaranteedTier) == []
  {
    var sys, idle := SystemPodsOfB(), IdlePodsOfB();
    SystemPodsOfBTiers();
    IdlePodsOfBTiers();
    InTierAppend(sys, idle, NonRemovable);
    InTierAppend(sys, idle, BestEffortTier);
    InTierAppend(sys, idle, BurstableTier);
    InTierAppend(sys, idle, GuaranteedTier);
  }

  /** B's requests: 1800 millicores and 3.5 GiB, all from the loaded pods. */
  lemma ScenarioRequestsB()
    ensures Requested(SystemPodsOfB() + IdlePodsOfB(), CPU) == 1800
    ensures Requested(SystemPodsOfB() + IdlePodsOfB(), Memory) == 3584 * Mi
  {
    var sys, idle := SystemPodsOfB(), IdlePodsOfB();
    assert sys == [sys[0], sys[1]] + [sys[2]] && [sys[0], sys[1]] == [sys[0]] + [sys[1]];
    RequestedAppend([sys[0]], [sys[1]], CPU);
    RequestedAppend([sys[0]], [sys[1]], Memory);
    RequestedAppend([sys[0], sys[1]], [sys[2]], CPU);
    RequestedAppend([sys[0], sys[1]], [sys[2]], Memory);
    assert Requested([sys[0]], CPU) == 600 && Requested([sys[1]], CPU) == 600 && Requested([sys[2]], CPU) == 600;
    assert Requested([sys[0]], Memory) == Gi && Requested([sys[1]], Memory) == Gi && Requested([sys[2]], Memory) == 1536 * Mi;
    RequestedNone(idle, CPU);
    RequestedNone(idle, Memory);
    RequestedAppend(sys, idle, CPU);
    RequestedAppend(sys, idle, Memory);
  }

  /**
   B's eight pods use 90% of its CPU, 87.5% of its memory and 80% of its pod
   capacity; the three loaded ones are non-removable and the five idle ones are
   its best-effort tier.
   */
  lemma ScenarioSnapshotB()
    ensures NodeB() == NodeUsage(ScenarioNode("B"), map[CPU := 90.0, Memory := 87.5, Pods := 80.0],
                                 SystemPodsOfB(), IdlePodsOfB(), [], [])
  {
    ScenarioTiersB();
    ScenarioRequestsB();
    assert |SystemPodsOfB() + IdlePodsOfB()| == 8;
  }

  /**
   Pods that request no CPU and no memory do not move a node's CPU usage or the
   CPU budget, so while the node's CPU stays above its target and CPU budget is
   left, every one of them the oracle lets go is evicted, however far that takes
   the pod budget below zero.
   */
  lemma {:induction false} RequestlessPodsIgnorePodBudget(l: Ledger, pods: seq<Pod>, target: ResourceThresholds,
                                                          cap: ResourceList, evict: Pod -> bool)
    requires PositiveCapacity(cap)
    requires forall p | p in pods :: evict(p) && CpuRequest(p) == 0 && MemoryRequest(p) == 0
    requires CPU in l.usage && CPU in target && l.usage[CPU] > target[CPU] && l.budget.cpu > 0.0
    ensures var l' := Drain(l, pods, target, cap, evict);
            && l'.budget.evicted == l.budget.evicted + |pods|
            && l'.budget.pods == l.budget.pods - |pods| as real
            && l'.budget.cpu == l.budget.cpu
            && CPU in l'.usage && l'.usage[CPU] == l.usage[CPU]
    decreases |pods|
  {
    if pods != [] {
      assert pods[0] in pods;
      var l1 := Charge(l, pods[0], cap);
      assert l1.usage[CPU] == l.usage[CPU] && l1.budget.cpu == l.budget.cpu by {
        assert CpuRequest(pods[0]) as real * 100.0 == 0.0;
      }
      assert Open(l1, target) by {
        assert Exceeds(l1.usage, target, CPU);
      }
      assert Drain(l, pods, target, cap, evict) == Drain(l1, pods[1..], target, cap, evict);
      assert forall p | p in pods[1..] :: p in pods;
      RequestlessPodsIgnorePodBudget(l1, pods[1..], target, cap, evict);
    }
  }

  /** A is low and B is a target. */
  lemma ScenarioClasses()
    ensures ClassOf(NodeA().usage, ScenarioLow(), ScenarioTarget()) == LowNode
    ensures ClassOf(NodeB().usage, ScenarioLow(), ScenarioTarget()) == TargetNode
  {
    ScenarioSnapshotA();
    ScenarioSnapshotB();
    var b := NodeB();
    assert IsNodeAboveTargetUtilization(b.usage, ScenarioTarget()) by {
      assert Exceeds(b.usage, ScenarioTarget(), CPU);
    }
    assert !IsNodeWithLowUtilization(b.usage, ScenarioLow()) by {
      assert b.usage[CPU] > ScenarioLow()[CPU];
    }
  }

  /** A leaves a budget of 3 pods, 800 millicores and 37.5% of 4 GiB. */
  lemma ScenarioBudget()
    ensures Slack([NodeA()], ScenarioTarget()) == Budget(3.0, 800.0, 1610612736.0, 0)
  {
    ScenarioSnapshotA();
    SlackOfLightNode(NodeA());
  }

  /** The budget a node shaped like A leaves, computed from its usage and capacity alone. */
  lemma SlackOfLightNode(a: NodeUsage)
    requires a.node == ScenarioNode("A") && a.usage == map[CPU := 10.0, Memory := 12.5, Pods := 20.0]
    ensures Slack([a], ScenarioTarget()) == Budget(3.0, 800.0, 1610612736.0, 0)
  {
    var target := ScenarioTarget();
    var capA := EffectiveCapacity(a.node);
    assert Quantity(capA, Pods) == 10 && Quantity(capA, CPU) == 2000 && Quantity(capA, Memory) == 4294967296;
    assert [a][..0] == [];
    assert Slack([a][..0], target) == Budget(0.0, 0.0, 0.0, 0);
  }

  /**
   With that budget, if the oracle lets B's best-effort pods go, all five are
   evicted, two more than the pod budget: B stays above its CPU target and the
   CPU budget stays positive, so the pod budget bounds nothing on its own.
   */
  lemma ScenarioOverrun(evict: Pod -> bool)
    requires forall p | p in NodeB().bePods :: evict(p)
    ensures var p := EvictAcross([NodeB()], Budget(3.0, 800.0, 1610612736.0, 0), ScenarioTarget(), evict);
            p.budget.evicted == 5 && p.budget.pods == -2.0
  {
    ScenarioSnapshotB();
    OverrunOfLoadedNode(NodeB(), evict);
  }

  /** The pass over a node shaped like B, from its usage and tiers alone. */
  lemma OverrunOfLoadedNode(b: NodeUsage, evict: Pod -> bool)
    requires b.node == ScenarioNode("B") && b.usage == map[CPU := 90.0, Memory := 87.5, Pods := 80.0]
    requires b.bePods == IdlePodsOfB() && b.bPods == [] && b.gPods == []
    requires forall p | p in b.bePods :: evict(p)
    ensures PositiveCapacity(EffectiveCapacity(b.node))
    ensures var p := EvictAcross([b], Budget(3.0, 800.0, 1610612736.0, 0), ScenarioTarget(), evict);
            p.budget.evicted == 5 && p.budget.pods == -2.0
  {
    var target := ScenarioTarget();
    var budget := Budget(3.0, 800.0, 1610612736.0, 0);
    var cap := EffectiveCapacity(b.node);
    assert forall p | p in b.bePods :: CpuRequest(p) == 0 && MemoryRequest(p) == 0;
    var l0 := Ledger(b.usage, budget);
    assert Open(l0, target) by {
      assert Exceeds(l0.usage, target, CPU);
    }
    RequestlessPodsIgnorePodBudget(l0, b.bePods, target, cap, evict);
    var l1 := EvictTier(l0, b.bePods, target, cap, evict);
    assert EvictTier(l1, [], target, cap, evict) == l1;
    assert EvictNode(b, budget, target, evict).budget == l1.budget;
    assert [b][..0] == [];
  }
}
