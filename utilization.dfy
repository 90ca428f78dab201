/**
 Per-node usage: partitioning a node's pods into eviction tiers and summing their
 requests into percentages of the node's capacity.
 */
module Utilization {
  import opened Resources

  /** The quality-of-service class a pod's requests and limits give it. */
  datatype QosClass = BestEffort | Burstable | Guaranteed

  /**
   A pod as the strategy sees it: what the pod helpers answer about it, taken as
   given. isDaemonSetOwned is only consulted when the pod has a creator reference.
   requests holds CPU in millicores and memory in bytes; requestsFailed says that
   summing its requests and limits reported an error.
   */
  datatype Pod = Pod(
    name: string,
    isMirror: bool,
    hasLocalStorage: bool,
    hasCreatorRef: bool,
    isDaemonSetOwned: bool,
    isCritical: bool,
    qos: QosClass,
    requests: ResourceList,
    requestsFailed: bool)

  /** The list a pod is appended to. */
  datatype Tier = NonRemovable | BestEffortTier | BurstableTier | GuaranteedTier

  /** A node's usage snapshot: its usage percentages and its pods, one list per tier. */
  datatype NodeUsage = NodeUsage(
    node: Node,
    usage: ResourceThresholds,
    nonRemovablePods: seq<Pod>,
    bePods: seq<Pod>,
    bPods: seq<Pod>,
    gPods: seq<Pod>)

  predicate IsNonRemovable(p: Pod) {
    p.isMirror || p.hasLocalStorage || !p.hasCreatorRef || p.isDaemonSetOwned || p.isCritical
  }

  /** The tier of a pod: non-removable first, then by QoS class. */
  function TierOf(p: Pod): (t: Tier)
    ensures t != NonRemovable ==> !p.isMirror && !p.hasLocalStorage && p.hasCreatorRef && !p.isDaemonSetOwned && !p.isCritical
    ensures t == BestEffortTier <==> !IsNonRemovable(p) && p.qos == BestEffort
  {
    if IsNonRemovable(p) then NonRemovable
    else if p.qos == BestEffort then BestEffortTier
    else if p.qos == Burstable then BurstableTier
    else GuaranteedTier
  }

  /** A pod's requests enter the node's totals: it is not best-effort and its requests could be computed. */
  predicate CountsRequests(p: Pod)
    ensures CountsRequests(p) ==> TierOf(p) != BestEffortTier
  {
    p.qos != BestEffort && !p.requestsFailed
  }

  /** The pods of tier t, in the order they were listed. */
  function InTier(pods: seq<Pod>, t: Tier): seq<Pod> {
    if pods == [] then []
    else
      var last := pods[|pods| - 1];
      InTier(pods[..|pods| - 1], t) + (if TierOf(last) == t then [last] else [])
  }

  /** Sum of the requests for resource r of the pods whose requests count. */
  function Requested(pods: seq<Pod>, r: Resource): nat {
    if pods == [] then 0
    else
      var last := pods[|pods| - 1];
      Requested(pods[..|pods| - 1], r) + (if CountsRequests(last) then Quantity(last.requests, r) else 0)
  }

  /** Usage percentages of a node hosting pods, each against the node's effective capacity. */
  function UsageOf(node: Node, pods: seq<Pod>): (u: ResourceThresholds)
    requires PositiveCapacity(EffectiveCapacity(node))
    ensures u.Keys == {CPU, Memory, Pods}
  {
    var c := EffectiveCapacity(node);
    map[CPU := (Requested(pods, CPU) as real * 100.0) / Quantity(c, CPU) as real,
        Memory := Requested(pods, Memory) as real / Quantity(c, Memory) as real * 100.0,
        Pods := (|pods| as real * 100.0) / Quantity(c, Pods) as real]
  }

  /** The usage snapshot of a node and its pods. */
  function Snapshot(node: Node, pods: seq<Pod>): NodeUsage
    requires PositiveCapacity(EffectiveCapacity(node))
  {
    NodeUsage(node, UsageOf(node, pods),
              InTier(pods, NonRemovable), InTier(pods, BestEffortTier),
              InTier(pods, BurstableTier), InTier(pods, GuaranteedTier))
  }

  /**
   Walks the pods once, appending each to its tier's list and adding the CPU and
   memory entries of its requests to the running totals, then turns the totals
   into percentages of the effective capacity.
   */
  method NodeUtilization(node: Node, pods: seq<Pod>)
    returns (usage: ResourceThresholds, nonRemovablePods: seq<Pod>, bePods: seq<Pod>, bPods: seq<Pod>, gPods: seq<Pod>)
    requires PositiveCapacity(EffectiveCapacity(node))
    ensures usage == UsageOf(node, pods)
    ensures nonRemovablePods == InTier(pods, NonRemovable) && bePods == InTier(pods, BestEffortTier)
    ensures bPods == InTier(pods, BurstableTier) && gPods == InTier(pods, GuaranteedTier)
  {
    nonRemovablePods, bePods, bPods, gPods := [], [], [], [];
    var totalReqs: ResourceList := map[];
    var i := 0;
    while i < |pods|
      invariant 0 <= i <= |pods|
      invariant nonRemovablePods == InTier(pods[..i], NonRemovable)
      invariant bePods == InTier(pods[..i], BestEffortTier)
      invariant bPods == InTier(pods[..i], BurstableTier)
      invariant gPods == InTier(pods[..i], GuaranteedTier)
      invariant Quantity(totalReqs, CPU) == Requested(pods[..i], CPU)
      invariant Quantity(totalReqs, Memory) == Requested(pods[..i], Memory)
    {
      var pod := pods[i];
      assert pods[..i + 1][..i] == pods[..i];
      i := i + 1;
      if IsNonRemovable(pod) {
        nonRemovablePods := nonRemovablePods + [pod];
        if pod.qos == BestEffort {
          continue;
        }
      } else if pod.qos == BestEffort {
        bePods := bePods + [pod];
        continue;
      } else if pod.qos == Burstable {
        bPods := bPods + [pod];
      } else {
        gPods := gPods + [pod];
      }
      if pod.requestsFailed {
        continue;
      }
      var req := pod.requests;
      if CPU in req {
        totalReqs := totalReqs[CPU := Quantity(totalReqs, CPU) + req[CPU]];
      }
      if Memory in req {
        totalReqs := totalReqs[Memory := Quantity(totalReqs, Memory) + req[Memory]];
      }
    }
    assert pods[..i] == pods;
    var c := EffectiveCapacity(node);
    var totalCpuReq := Quantity(totalReqs, CPU);
    var totalMemReq := Quantity(totalReqs, Memory);
    usage := map[];
    usage := usage[CPU := (totalCpuReq as real * 100.0) / Quantity(c, CPU) as real];
    usage := usage[Memory := totalMemReq as real / Quantity(c, Memory) as real * 100.0];
    usage := usage[Pods := (|pods| as real * 100.0) / Quantity(c, Pods) as real];
  }

  /** Tier lists distribute over concatenation: each tier keeps the pods' listing order. */
  lemma {:induction false} InTierAppend(xs: seq<Pod>, ys: seq<Pod>, t: Tier)
    ensures InTier(xs + ys, t) == InTier(xs, t) + InTier(ys, t)
    decreases |ys|
  {
    if ys == [] {
      assert xs + ys == xs;
    } else {
      var ys' := ys[..|ys| - 1];
      assert (xs + ys)[..|xs + ys| - 1] == xs + ys';
      InTierAppend(xs, ys', t);
    }
  }

  /** A pod is in the list of tier t exactly when it is one of the node's pods and its tier is t. */
  lemma {:induction false} InTierMembers(pods: seq<Pod>, t: Tier, p: Pod)
    ensures p in InTier(pods, t) <==> p in pods && TierOf(p) == t
  {
    if pods != [] {
      var init := pods[..|pods| - 1];
      InTierMembers(init, t, p);
      assert pods == init + [pods[|pods| - 1]];
    }
  }

  /** A non-empty sequence is its initial part and its last element. */
  lemma MultisetOfLast<T>(s: seq<T>)
    requires |s| > 0
    ensures multiset(s) == multiset(s[..|s| - 1]) + multiset{s[|s| - 1]}
  {
    assert s == s[..|s| - 1] + [s[|s| - 1]];
  }

  /** Appending one element adds one occurrence of it. */
  lemma MultisetAppend<T>(s: seq<T>, x: T)
    ensures multiset(s + [x]) == multiset(s) + multiset{x}
  {
  }

  /** A non-empty sequence is its initial part followed by its last element. */
  lemma SplitLast<T>(s: seq<T>)
    requires |s| > 0
    ensures s == s[..|s| - 1] + [s[|s| - 1]]
  {
  }

  /** Dropping the last element of a concatenation drops it from the second part. */
  lemma InitOfConcat<T>(xs: seq<T>, ys: seq<T>)
    requires |ys| > 0
    ensures (xs + ys)[..|xs + ys| - 1] == xs + ys[..|ys| - 1]
  {
  }

  /** Appending nothing changes nothing. */
  lemma ConcatEmpty<T>(xs: seq<T>, ys: seq<T>)
    requires ys == []
    ensures xs + ys == xs
  {
  }

  /** The four tier lists together hold every pod of the node exactly as often as it was listed. */
  lemma {:induction false} TiersPartitionPods(pods: seq<Pod>)
    ensures multiset(InTier(pods, NonRemovable)) + multiset(InTier(pods, BestEffortTier))
          + multiset(InTier(pods, BurstableTier)) + multiset(InTier(pods, GuaranteedTier))
         == multiset(pods)
    ensures |InTier(pods, NonRemovable)| + |InTier(pods, BestEffortTier)|
          + |InTier(pods, BurstableTier)| + |InTier(pods, GuaranteedTier)| == |pods|
  {
    if pods != [] {
      var init := pods[..|pods| - 1];
      var last := pods[|pods| - 1];
      TiersPartitionPods(init);
      MultisetOfLast(pods);
      MultisetAppend(InTier(init, TierOf(last)), last);
    }
  }

  /** Appending one pod adds its counted requests to its own tier's total and nothing to the others. */
  lemma RequestedInTierStep(init: seq<Pod>, last: Pod, t: Tier, r: Resource)
    ensures Requested(InTier(init + [last], t), r)
         == Requested(InTier(init, t), r) + (if TierOf(last) == t && CountsRequests(last) then Quantity(last.requests, r) else 0)
  {
    var pods := init + [last];
    assert pods[..|pods| - 1] == init;
    if TierOf(last) == t {
      var s := InTier(init, t) + [last];
      assert s[..|s| - 1] == InTier(init, t);
    } else {
      assert InTier(pods, t) == InTier(init, t) + [];
      assert InTier(init, t) + [] == InTier(init, t);
    }
  }

  /** The total of a concatenation is the sum of the totals. */
  lemma {:induction false} RequestedAppend(xs: seq<Pod>, ys: seq<Pod>, r: Resource)
    ensures Requested(xs + ys, r) == Requested(xs, r) + Requested(ys, r)
    decreases |ys|
  {
    if ys == [] {
      ConcatEmpty(xs, ys);
    } else {
      InitOfConcat(xs, ys);
      RequestedAppend(xs, ys[..|ys| - 1], r);
    }
  }

  /** When every pod has tier t, tier t's list is the whole list and every other tier's list is empty. */
  lemma {:induction false} InTierUniform(pods: seq<Pod>, t: Tier, t': Tier)
    requires forall p | p in pods :: TierOf(p) == t
    ensures InTier(pods, t) == pods
    ensures t' != t ==> InTier(pods, t') == []
  {
    if pods != [] {
      var init := pods[..|pods| - 1];
      assert pods[|pods| - 1] in pods;
      assert forall p | p in init :: p in pods;
      InTierUniform(init, t, t');
      SplitLast(pods);
    }
  }

  /** Pods none of whose requests count add nothing to any total. */
  lemma {:induction false} RequestedNone(pods: seq<Pod>, r: Resource)
    requires forall p | p in pods :: !CountsRequests(p)
    ensures Requested(pods, r) == 0
  {
    if pods != [] {
      var init := pods[..|pods| - 1];
      assert pods[|pods| - 1] in pods;
      assert forall p | p in init :: p in pods;
      RequestedNone(init, r);
    }
  }

  /** Best-effort pods add nothing to the totals, so the requests split over the three other tiers. */
  lemma {:induction false} RequestsSplitOverTiers(pods: seq<Pod>, r: Resource)
    ensures Requested(InTier(pods, BestEffortTier), r) == 0
    ensures Requested(pods, r) == Requested(InTier(pods, NonRemovable), r)
                                + Requested(InTier(pods, BurstableTier), r)
                                + Requested(InTier(pods, GuaranteedTier), r)
  {
    if pods != [] {
      var init := pods[..|pods| - 1];
      var last := pods[|pods| - 1];
      assert pods == init + [last];
      RequestsSplitOverTiers(init, r);
      RequestedInTierStep(init, last, NonRemovable, r);
      RequestedInTierStep(init, last, BestEffortTier, r);
      RequestedInTierStep(init, last, BurstableTier, r);
      RequestedInTierStep(init, last, GuaranteedTier, r);
    }
  }

  /**
   No usage entry is negative, and the pods entry is positive exactly when the
   node has a pod.
   */
  lemma UsageBounds(node: Node, pods: seq<Pod>)
    requires PositiveCapacity(EffectiveCapacity(node))
    ensures UsageOf(node, pods)[CPU] >= 0.0 && UsageOf(node, pods)[Memory] >= 0.0 && UsageOf(node, pods)[Pods] >= 0.0
    ensures UsageOf(node, pods)[Pods] > 0.0 <==> |pods| > 0
  {
    var c := EffectiveCapacity(node);
    var cpu, mem, n := Requested(pods, CPU) as real, Requested(pods, Memory) as real, |pods| as real;
    assert cpu * 100.0 >= 0.0 && mem / Quantity(c, Memory) as real >= 0.0;
    assert n * 100.0 >= 0.0 && (n > 0.0 ==> n * 100.0 > 0.0);
  }

  /**
   The pods entry of the usage snapshot counts every pod of the node, the
   non-removable ones included.
   */
  lemma UsageCountsEveryPod(node: Node, pods: seq<Pod>)
    requires PositiveCapacity(EffectiveCapacity(node))
    ensures var s := Snapshot(node, pods);
      s.usage[Pods] == ((|s.nonRemovablePods| + |s.bePods| + |s.bPods| + |s.gPods|) as real * 100.0)
                       / Quantity(EffectiveCapacity(node), Pods) as real
  {
    TiersPartitionPods(pods);
  }

  /**
   Swapping one pod of the list for another with the same QoS class, the same
   outcome of the request computation and the same request for r leaves the
   total for r unchanged; a best-effort pod adds nothing to it.
   */
  lemma {:induction false} ReplacePodRequested(xs: seq<Pod>, ys: seq<Pod>, p: Pod, p': Pod, r: Resource)
    requires p'.qos == p.qos && p'.requestsFailed == p.requestsFailed
    requires Quantity(p'.requests, r) == Quantity(p.requests, r)
    ensures Requested(xs + [p'] + ys, r) == Requested(xs + [p] + ys, r)
    ensures p.qos == BestEffort ==> Requested(xs + [p] + ys, r) == Requested(xs + ys, r)
    decreases |ys|
  {
    if ys == [] {
      ConcatEmpty(xs + [p], ys);
      ConcatEmpty(xs + [p'], ys);
      ConcatEmpty(xs, ys);
      InitOfConcat(xs, [p]);
      InitOfConcat(xs, [p']);
      ConcatEmpty(xs, [p][..0]);
    } else {
      ReplacePodRequested(xs, ys[..|ys| - 1], p, p', r);
      InitOfConcat(xs + [p], ys);
      InitOfConcat(xs + [p'], ys);
      InitOfConcat(xs, ys);
    }
  }

  /**
   Only a pod's CPU and memory requests reach the usage map: two pods that agree
   on those, on QoS class and on whether the computation failed give the node
   the same usage wherever they sit in the list, and a best-effort pod changes
   only the pods entry.
   */
  lemma OnlyCpuAndMemoryRequestsCount(node: Node, xs: seq<Pod>, ys: seq<Pod>, p: Pod, p': Pod)
    requires PositiveCapacity(EffectiveCapacity(node))
    requires p'.qos == p.qos && p'.requestsFailed == p.requestsFailed
    requires Quantity(p'.requests, CPU) == Quantity(p.requests, CPU)
    requires Quantity(p'.requests, Memory) == Quantity(p.requests, Memory)
    ensures UsageOf(node, xs + [p'] + ys) == UsageOf(node, xs + [p] + ys)
    ensures p.qos == BestEffort ==>
              && UsageOf(node, xs + [p] + ys)[CPU] == UsageOf(node, xs + ys)[CPU]
              && UsageOf(node, xs + [p] + ys)[Memory] == UsageOf(node, xs + ys)[Memory]
  {
    ReplacePodRequested(xs, ys, p, p', CPU);
    ReplacePodRequested(xs, ys, p, p', Memory);
  }
}
