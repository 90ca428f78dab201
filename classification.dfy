/**
 Classifying every listed node as low, target or other from its usage snapshot.
 */
module Classification {
  import opened Resources
  import opened Thresholds
  import opened Utilization

  /** A node and the pods listed on it; nodes whose listing failed are not in the inventory at all. */
  datatype NodePods = NodePods(node: Node, pods: seq<Pod>)

  datatype NodeClass = LowNode | TargetNode | OtherNode

  /**
   The low test comes first, so a node that is both low and above target is low.
   A target node is not low against either map; any other node is not low but
   within every target threshold.
   */
  function ClassOf(usage: ResourceThresholds, low: ResourceThresholds, target: ResourceThresholds): (c: NodeClass)
  {
    if IsNodeWithLowUtilization(usage, low) then LowNode
    else if IsNodeAboveTargetUtilization(usage, target) then TargetNode
    else OtherNode
  }

  /**
   The low test takes precedence: a node that is low against the low thresholds
   is low even when it is also above target. A target node is low against
   neither map; any other node is not low, yet within every target threshold.
   */
  lemma ClassOfPrecedence(usage: ResourceThresholds, low: ResourceThresholds, target: ResourceThresholds)
    ensures IsNodeWithLowUtilization(usage, low) ==> ClassOf(usage, low, target) == LowNode
    ensures ClassOf(usage, low, target) == TargetNode ==>
              !IsNodeWithLowUtilization(usage, low) && !IsNodeWithLowUtilization(usage, target)
    ensures ClassOf(usage, low, target) == OtherNode ==>
              !IsNodeWithLowUtilization(usage, low) && IsNodeWithLowUtilization(usage, target)
  {
    LowIsNotAbove(usage, target);
  }

  /** Every listed node has capacities the usage percentages can be taken against. */
  predicate Measurable(npm: seq<NodePods>) {
    forall i | 0 <= i < |npm| :: PositiveCapacity(EffectiveCapacity(npm[i].node))
  }

  /** The usage snapshot of every listed node, in inventory order. */
  function Snapshots(npm: seq<NodePods>): (s: seq<NodeUsage>)
    requires Measurable(npm)
    ensures |s| == |npm|
  {
    if npm == [] then []
    else
      var last := npm[|npm| - 1];
      Snapshots(npm[..|npm| - 1]) + [Snapshot(last.node, last.pods)]
  }

  /** Entry i of the snapshots is the snapshot of the i-th listed node and its pods. */
  lemma {:induction false} SnapshotsAt(npm: seq<NodePods>, i: nat)
    requires Measurable(npm) && i < |npm|
    ensures Snapshots(npm)[i] == Snapshot(npm[i].node, npm[i].pods)
  {
    var init := npm[..|npm| - 1];
    if i < |init| {
      assert Measurable(init);
      SnapshotsAt(init, i);
    }
  }

  /** The snapshots among s whose class is c, in their order in s. */
  function Filter(s: seq<NodeUsage>, low: ResourceThresholds, target: ResourceThresholds, c: NodeClass): seq<NodeUsage> {
    if s == [] then []
    else
      var last := s[|s| - 1];
      Filter(s[..|s| - 1], low, target, c) + (if ClassOf(last.usage, low, target) == c then [last] else [])
  }

  /** The snapshots of the listed nodes that fall in class c, in inventory order. */
  function InClass(npm: seq<NodePods>, low: ResourceThresholds, target: ResourceThresholds, c: NodeClass): seq<NodeUsage>
    requires Measurable(npm)
  {
    Filter(Snapshots(npm), low, target, c)
  }

  /** Computes each listed node's snapshot and appends it to the list of its class. */
  method ClassifyNodes(npm: seq<NodePods>, low: ResourceThresholds, target: ResourceThresholds)
    returns (lowNodes: seq<NodeUsage>, targetNodes: seq<NodeUsage>, otherNodes: seq<NodeUsage>)
    requires Measurable(npm)
    ensures lowNodes == InClass(npm, low, target, LowNode)
    ensures targetNodes == InClass(npm, low, target, TargetNode)
    ensures otherNodes == InClass(npm, low, target, OtherNode)
  {
    lowNodes, targetNodes, otherNodes := [], [], [];
    ghost var snaps: seq<NodeUsage> := [];
    var i := 0;
    while i < |npm|
      invariant 0 <= i <= |npm|
      invariant Measurable(npm[..i]) && snaps == Snapshots(npm[..i])
      invariant lowNodes == Filter(snaps, low, target, LowNode)
      invariant targetNodes == Filter(snaps, low, target, TargetNode)
      invariant otherNodes == Filter(snaps, low, target, OtherNode)
    {
      var entry := npm[i];
      assert PositiveCapacity(EffectiveCapacity(entry.node));
      var usage, nonRemovablePods, bePods, bPods, gPods := NodeUtilization(entry.node, entry.pods);
      var nuMap := NodeUsage(entry.node, usage, nonRemovablePods, bePods, bPods, gPods);
      SnapshotsStep(npm, i, usage, nonRemovablePods, bePods, bPods, gPods);
      FilterStep(snaps, nuMap, low, target, LowNode);
      FilterStep(snaps, nuMap, low, target, TargetNode);
      FilterStep(snaps, nuMap, low, target, OtherNode);
      if IsNodeWithLowUtilization(usage, low) {
        lowNodes := lowNodes + [nuMap];
      } else if IsNodeAboveTargetUtilization(usage, target) {
        targetNodes := targetNodes + [nuMap];
      } else {
        otherNodes := otherNodes + [nuMap];
      }
      snaps := snaps + [nuMap];
      i := i + 1;
    }
    assert npm[..i] == npm;
  }

  /** One more listed node adds its snapshot at the end. */
  lemma SnapshotsStep(npm: seq<NodePods>, i: nat, usage: ResourceThresholds,
                      nonRemovablePods: seq<Pod>, bePods: seq<Pod>, bPods: seq<Pod>, gPods: seq<Pod>)
    requires Measurable(npm) && i < |npm|
    requires PositiveCapacity(EffectiveCapacity(npm[i].node)) && usage == UsageOf(npm[i].node, npm[i].pods)
    requires nonRemovablePods == InTier(npm[i].pods, NonRemovable) && bePods == InTier(npm[i].pods, BestEffortTier)
    requires bPods == InTier(npm[i].pods, BurstableTier) && gPods == InTier(npm[i].pods, GuaranteedTier)
    ensures Measurable(npm[..i]) && Measurable(npm[..i + 1])
    ensures Snapshots(npm[..i + 1]) == Snapshots(npm[..i]) + [NodeUsage(npm[i].node, usage, nonRemovablePods, bePods, bPods, gPods)]
  {
    assert npm[..i + 1][..i] == npm[..i];
  }

  /** One more snapshot extends the list of class c exactly when its class is c. */
  lemma FilterStep(snaps: seq<NodeUsage>, s: NodeUsage, low: ResourceThresholds, target: ResourceThresholds, c: NodeClass)
    ensures ClassOf(s.usage, low, target) == c ==> Filter(snaps + [s], low, target, c) == Filter(snaps, low, target, c) + [s]
    ensures ClassOf(s.usage, low, target) != c ==> Filter(snaps + [s], low, target, c) == Filter(snaps, low, target, c)
  {
    assert (snaps + [s])[..|snaps|] == snaps;
    assert Filter(snaps, low, target, c) + [] == Filter(snaps, low, target, c);
  }

  /** A snapshot is in the list of class c exactly when it is in s and its class is c. */
  lemma {:induction false} FilterMembers(snaps: seq<NodeUsage>, low: ResourceThresholds, target: ResourceThresholds,
                                         c: NodeClass, s: NodeUsage)
    ensures s in Filter(snaps, low, target, c) <==> s in snaps && ClassOf(s.usage, low, target) == c
  {
    if snaps != [] {
      var init := snaps[..|snaps| - 1];
      FilterMembers(init, low, target, c, s);
      assert snaps == init + [snaps[|snaps| - 1]];
    }
  }

  /** The three class lists of s together hold every snapshot of s exactly as often as it occurs. */
  lemma {:induction false} FilterPartition(snaps: seq<NodeUsage>, low: ResourceThresholds, target: ResourceThresholds)
    ensures multiset(Filter(snaps, low, target, LowNode)) + multiset(Filter(snaps, low, target, TargetNode))
          + multiset(Filter(snaps, low, target, OtherNode)) == multiset(snaps)
  {
    if snaps != [] {
      var init := snaps[..|snaps| - 1];
      var last := snaps[|snaps| - 1];
      FilterPartition(init, low, target);
      FilterStep(init, last, low, target, LowNode);
      FilterStep(init, last, low, target, TargetNode);
      FilterStep(init, last, low, target, OtherNode);
      MultisetOfLast(snaps);
      match ClassOf(last.usage, low, target)
      case LowNode => MultisetAppend(Filter(init, low, target, LowNode), last);
      case TargetNode => MultisetAppend(Filter(init, low, target, TargetNode), last);
      case OtherNode => MultisetAppend(Filter(init, low, target, OtherNode), last);
    }
  }

  /** A snapshot is in the list of class c exactly when it is a listed node's snapshot and its class is c. */
  lemma InClassMembers(npm: seq<NodePods>, low: ResourceThresholds, target: ResourceThresholds, c: NodeClass, s: NodeUsage)
    requires Measurable(npm)
    ensures s in InClass(npm, low, target, c) <==> s in Snapshots(npm) && ClassOf(s.usage, low, target) == c
  {
    FilterMembers(Snapshots(npm), low, target, c, s);
  }

  /** Low, target and other together hold every listed node's snapshot, each exactly once per listing. */
  lemma ClassesPartitionNodes(npm: seq<NodePods>, low: ResourceThresholds, target: ResourceThresholds)
    requires Measurable(npm)
    ensures multiset(InClass(npm, low, target, LowNode)) + multiset(InClass(npm, low, target, TargetNode))
          + multiset(InClass(npm, low, target, OtherNode)) == multiset(Snapshots(npm))
    ensures |InClass(npm, low, target, LowNode)| + |InClass(npm, low, target, TargetNode)|
          + |InClass(npm, low, target, OtherNode)| == |npm|
  {
    var snaps := Snapshots(npm);
    FilterPartition(snaps, low, target);
    assert |multiset(snaps)| == |npm|;
  }

  /**
   What each class means: low nodes pass the low test; target nodes fail it and
   exceed a target threshold; other nodes fail the low test and exceed no target.
   */
  lemma ClassMeaning(npm: seq<NodePods>, low: ResourceThresholds, target: ResourceThresholds, s: NodeUsage)
    requires Measurable(npm)
    ensures s in InClass(npm, low, target, LowNode) <==>
              s in Snapshots(npm) && IsNodeWithLowUtilization(s.usage, low)
    ensures s in InClass(npm, low, target, TargetNode) <==>
              s in Snapshots(npm) && !IsNodeWithLowUtilization(s.usage, low) && IsNodeAboveTargetUtilization(s.usage, target)
    ensures s in InClass(npm, low, target, OtherNode) <==>
              s in Snapshots(npm) && !IsNodeWithLowUtilization(s.usage, low) && !IsNodeAboveTargetUtilization(s.usage, target)
  {
    InClassMembers(npm, low, target, LowNode, s);
    InClassMembers(npm, low, target, TargetNode, s);
    InClassMembers(npm, low, target, OtherNode, s);
  }
}
