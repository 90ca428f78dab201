# Low node utilization, modelled in Dafny

This project models the descheduler's *low node utilization* strategy. The strategy finds nodes whose
usage is at or below a set of low thresholds. If there are enough such nodes, it evicts pods from
the nodes whose usage exceeds a set of target thresholds, so that the scheduler can place those pods
on the emptier nodes.

Each run of the strategy goes through these steps:

1. It checks the two threshold configurations.
2. It measures every node's usage from the requests of the pods listed on it. CPU and memory usage
   are percentages of the node's effective capacity; pods usage is a pod count as a percentage of the
   node's pod capacity.
3. It puts every node in one of three classes: low, target or other.
4. It gives up early when there are no low nodes, too few low nodes, only low nodes, or no target
   nodes.
5. Otherwise it runs the eviction pass:
   - The target nodes are sorted, largest summed usage first.
   - Three shared budgets (pods, millicores, bytes) are derived from the room the low nodes leave
     below the target thresholds.
   - Pods are evicted from each target node: best-effort pods first, then burstable, then guaranteed.
     This continues while the node is still above a target threshold and some budget is still
     positive.

The model has one module per concern:

- `Resources` covers resource names, percentage maps, quantity maps and effective capacity.
- `Thresholds` covers the two validators and the two usage comparisons. The comparisons are given
  both as quantifiers and as the source's early-return loops over an arbitrary key order.
- `Utilization` covers pods, eviction tiers and `NodeUtilization`, which is an imperative loop
  proved against the specification functions `InTier`, `Requested` and `UsageOf`.
- `Classification` covers `ClassifyNodes`, a loop proved against `InClass`.
- `Ordering` covers the sort key and an in-place sort of an `array`.
- `Eviction` covers the following:
  - the budgets;
  - the class `Evictor`, whose fields are the budget counters that the source passes by pointer
    together with the node's live usage map;
  - the tier loop `EvictPods`, proved against the recursive `EvictTier`;
  - the whole pass `EvictPodsFromTargetNodes`, proved against `EvictAcross`.
- `Strategy` covers the entry point and a worked scenario.

Two properties one might expect do not hold, and the model follows the code:

- The code calls an unstable sort, so the model states only a permutation in non-increasing key
  order.
- The eviction loop keeps going while *any* of the three budgets is positive. `ScenarioOverrun`
  exhibits a run that evicts two pods more than the pod budget allows.

## Model

| member | source | states |
|---|---|---|
| Resources.CapacityFallback | pkg/descheduler/strategies/lownodeutilization.go:318-321 | A node's effective capacity is its allocatable list when that is non-empty and its capacity otherwise. It is empty only when both lists are. |
| Thresholds.ValidateThresholds | pkg/descheduler/strategies/lownodeutilization.go:79-96 | The low thresholds are accepted exactly when they name CPU, memory or pods. An accepted map is non-empty. |
| Thresholds.ValidateTargetThresholds | pkg/descheduler/strategies/lownodeutilization.go:99-108 | The target thresholds are accepted exactly when they name pods. |
| Thresholds.IsNodeAboveTargetUtilization | pkg/descheduler/strategies/lownodeutilization.go:249-260 | Some tracked usage key with a threshold is above that threshold. Thresholds naming none of CPU, memory and pods are never exceeded, and an empty usage map is never above. |
| Thresholds.IsNodeWithLowUtilization | pkg/descheduler/strategies/lownodeutilization.go:262-273 | Every tracked usage key with a threshold is at most that threshold. Thresholds naming none of CPU, memory and pods make every node low, and so does an empty usage map. |
| Thresholds.AboveScan | pkg/descheduler/strategies/lownodeutilization.go:249-260 | The source's loop over one key order. A true answer needs a visited tracked key that has a threshold. |
| Thresholds.LowScan | pkg/descheduler/strategies/lownodeutilization.go:262-273 | The source's loop over one key order. Over the same keys it answers exactly the opposite of the above-target loop. |
| Thresholds.AboveScanFinds | pkg/descheduler/strategies/lownodeutilization.go:249-260 | The above-target loop returns true exactly when one of the visited tracked keys exceeds its threshold. |
| Thresholds.LowScanFindsNone | pkg/descheduler/strategies/lownodeutilization.go:262-273 | The low-utilization loop returns true exactly when none of the visited tracked keys exceeds its threshold. |
| Thresholds.AboveScanIsOrderFree | pkg/descheduler/strategies/lownodeutilization.go:249-260 | Every iteration order over the usage keys gives the same verdict: some tracked key with a threshold is above it. |
| Thresholds.LowScanIsOrderFree | pkg/descheduler/strategies/lownodeutilization.go:262-273 | Every iteration order gives the same verdict: every tracked key with a threshold is at most that threshold. |
| Thresholds.LowIsNotAbove | pkg/descheduler/strategies/lownodeutilization.go:249-273 | Against the same thresholds, the two tests are exact complements. |
| Thresholds.OnlySharedTrackedKeysMatter | pkg/descheduler/strategies/lownodeutilization.go:250-257 | Changing a usage entry that is untracked, or that has no threshold, changes neither verdict. |
| Utilization.TierOf | pkg/descheduler/strategies/lownodeutilization.go:287-299 | Only a pod that is not mirrored, has no local storage, has a creator reference, is not owned by a daemon set and is not critical lands in an evictable tier. A pod is in the best-effort tier exactly when it is removable and best-effort. |
| Utilization.CountsRequests | pkg/descheduler/strategies/lownodeutilization.go:289-305 | A pod whose requests enter the totals is never in the best-effort tier. |
| Utilization.UsageOf | pkg/descheduler/strategies/lownodeutilization.go:323-330 | The usage map has exactly the keys CPU, memory and pods. |
| Utilization.UsageBounds | pkg/descheduler/strategies/lownodeutilization.go:323-330 | No usage entry is negative. The pods entry is positive exactly when the node has a pod. |
| Utilization.NodeUtilization | pkg/descheduler/strategies/lownodeutilization.go:275-331 | The single pass over the pods yields each tier's pods in listing order. It also yields the usage map: summed CPU and memory requests of counted pods, and the pod count, each as a percentage of the effective capacity. |
| Utilization.InTierAppend | pkg/descheduler/strategies/lownodeutilization.go:281-299 | Tier lists distribute over concatenation of the pod list, keeping order. |
| Utilization.InTierMembers | pkg/descheduler/strategies/lownodeutilization.go:287-299 | A pod is in a tier's list exactly when it is on the node and belongs to that tier: non-removable first, then by QoS class. |
| Utilization.TiersPartitionPods | pkg/descheduler/strategies/lownodeutilization.go:281-299 | The four tier lists together hold every pod exactly as often as it was listed, and their lengths add up to the pod count. |
| Utilization.RequestedInTierStep | pkg/descheduler/strategies/lownodeutilization.go:287-315 | A new pod adds its counted request to its own tier's total and nothing to the other tiers' totals. |
| Utilization.RequestsSplitOverTiers | pkg/descheduler/strategies/lownodeutilization.go:287-315 | Best-effort pods contribute no requests. The node's total is the sum over the non-removable, burstable and guaranteed tiers. |
| Utilization.UsageCountsEveryPod | pkg/descheduler/strategies/lownodeutilization.go:323-330 | The pods entry counts every pod in the four tier lists, non-removable ones included. |
| Utilization.ReplacePodRequested | pkg/descheduler/strategies/lownodeutilization.go:301-315 | Swapping a pod anywhere in the list for one with the same QoS class, the same request outcome and the same request for a resource leaves that resource's total unchanged. A best-effort pod adds nothing to any total. |
| Utilization.OnlyCpuAndMemoryRequestsCount | pkg/descheduler/strategies/lownodeutilization.go:301-330 | Only a pod's CPU and memory requests reach the usage map. Two pods that agree on those, on QoS class and on the request outcome give the node the same usage wherever they sit. A best-effort pod changes only the pods entry. |
| Classification.Snapshots | pkg/descheduler/strategies/lownodeutilization.go:112-114 | Every listed node gets exactly one usage snapshot. |
| Classification.SnapshotsAt | pkg/descheduler/strategies/lownodeutilization.go:112-114 | Entry i of the snapshots is the snapshot of the i-th listed node and its pods. |
| Classification.ClassOfPrecedence | pkg/descheduler/strategies/lownodeutilization.go:117-124 | `ClassOf` applies the low test first, so a node that is both low and above target is low. A target node is low against neither map. Any other node is not low, yet within every target threshold. |
| Classification.ClassifyNodes | pkg/descheduler/strategies/lownodeutilization.go:110-127 | The loop's three lists are the listed nodes' snapshots filtered by class, in listing order. |
| Classification.FilterMembers | pkg/descheduler/strategies/lownodeutilization.go:117-124 | A snapshot is in a class list exactly when it is among the snapshots and its class is that class. |
| Classification.FilterPartition | pkg/descheduler/strategies/lownodeutilization.go:117-124 | The three class lists together hold every snapshot exactly as often as it occurs. |
| Classification.InClassMembers | pkg/descheduler/strategies/lownodeutilization.go:110-127 | A snapshot is in a class list exactly when it is a listed node's snapshot of that class. |
| Classification.ClassesPartitionNodes | pkg/descheduler/strategies/lownodeutilization.go:110-127 | Low, target and other partition the listed nodes. As a multiset they equal all snapshots, and their lengths sum to the number of listed nodes. |
| Classification.ClassMeaning | pkg/descheduler/strategies/lownodeutilization.go:117-124 | Low means the low test passes. Target means the low test fails and some target threshold is exceeded. Other means the low test fails and no target threshold is exceeded. |
| Ordering.SumScan | pkg/descheduler/strategies/lownodeutilization.go:221-230 | The comparator's per-node sum over one key order. It is non-negative when every visited usage value is. |
| Ordering.SumScanCoversKeys | pkg/descheduler/strategies/lownodeutilization.go:221-225 | Summing over distinct usage keys adds each tracked value exactly once. |
| Ordering.SumScanIsOrderFree | pkg/descheduler/strategies/lownodeutilization.go:219-233 | Every iteration order gives the comparator the same key: CPU + memory + pods usage. |
| Ordering.SwapDown | pkg/descheduler/strategies/lownodeutilization.go:219 | Exchanges two neighbouring nodes and keeps the multiset of nodes. |
| Ordering.InsertDescending | pkg/descheduler/strategies/lownodeutilization.go:218-234 | Extends a sorted prefix by one node and keeps the multiset of nodes. |
| Ordering.SortNodesByUsage | pkg/descheduler/strategies/lownodeutilization.go:218-234 | The array ends in non-increasing order of summed usage and is a permutation of its old contents. |
| Eviction.Charge | pkg/descheduler/strategies/lownodeutilization.go:195-206 | One eviction adds one to the counter and takes one from the pod budget. It never raises the CPU or memory budget. It strictly lowers the node's pods usage and never raises its CPU or memory usage. |
| Eviction.Drain | pkg/descheduler/strategies/lownodeutilization.go:187-213 | Once the node is open, the tier loop evicts at most as many pods as the oracle lets go, and never un-evicts. |
| Eviction.EvictTier | pkg/descheduler/strategies/lownodeutilization.go:185-215 | The tier loop with its entry gate evicts at most as many pods as the oracle lets go, and never un-evicts. |
| Eviction.DrainIsGated | pkg/descheduler/strategies/lownodeutilization.go:187-213 | Once the node is open, the loop with its break is the same as checking the gate before every attempt. |
| Eviction.EvictTierIsGated | pkg/descheduler/strategies/lownodeutilization.go:185-215 | Every eviction attempt happens while the node is above target and some budget is positive. |
| Eviction.GatedAccounting | pkg/descheduler/strategies/lownodeutilization.go:190-206 | Over one tier, evictions number at most the successes the oracle allows. The pod budget falls by exactly that number. The CPU and memory budgets never rise. Pods usage falls by one pod's share per eviction. |
| Eviction.EvictTierAccounting | pkg/descheduler/strategies/lownodeutilization.go:185-215 | The same bookkeeping holds for the tier loop as written. |
| Eviction.TierOrderGate | pkg/descheduler/strategies/lownodeutilization.go:164-169 | A node that is closed on arrival loses no pod. A node that the best-effort tier leaves closed loses no burstable or guaranteed pod. |
| Eviction.EvictNodeAccounting | pkg/descheduler/strategies/lownodeutilization.go:158-170 | Per node, evictions are bounded by the successes in its three tiers. The pod budget falls by exactly the number evicted. The CPU and memory budgets never rise. |
| Eviction.EvictAcross | pkg/descheduler/strategies/lownodeutilization.go:158-170 | The pass over the target nodes in the given order returns one node per target node. |
| Eviction.EvictAcrossKeepsNodes | pkg/descheduler/strategies/lownodeutilization.go:158-170 | The pass keeps each node in its place. Only the node's usage changes. |
| Eviction.EvictAcrossAccounting | pkg/descheduler/strategies/lownodeutilization.go:158-170 | Over the whole pass, evictions are bounded by all successes. The pod budget falls by exactly the number evicted. The CPU and memory budgets never rise. |
| Eviction.NoBudgetNoEviction | pkg/descheduler/strategies/lownodeutilization.go:185 | With no positive budget, the pass evicts nothing and changes no usage. |
| Eviction.SlackNeedsTarget | pkg/descheduler/strategies/lownodeutilization.go:146-155 | Without a CPU target the CPU budget is zero. Without a memory target the memory budget is zero. |
| Eviction.PodSlackNonNegative | pkg/descheduler/strategies/lownodeutilization.go:136-143 | Low nodes at or below the target pods threshold leave a non-negative pod budget. |
| Eviction.LowNodesLeavePodRoom | pkg/descheduler/strategies/lownodeutilization.go:136-143 | When the low pods threshold is at most the target one, the low nodes' pod budget is not negative. |
| Eviction.Evictor.constructor | pkg/descheduler/strategies/lownodeutilization.go:130-135 | Starts with the given budgets and no usage map. |
| Eviction.Evictor.EvictPods | pkg/descheduler/strategies/lownodeutilization.go:174-216 | The counters and the usage map change exactly as the recursive tier eviction says. |
| Eviction.Evictor.RecordEviction | pkg/descheduler/strategies/lownodeutilization.go:195-206 | One success increments the counter, charges one pod's share and the pod's CPU and memory requests to the usage map, and reduces the three budgets. |
| Eviction.Evictor.DrainNode | pkg/descheduler/strategies/lownodeutilization.go:158-170 | Loads the node's usage, then evicts the best-effort, burstable and guaranteed tiers in that order on one live usage map. |
| Eviction.SumSlack | pkg/descheduler/strategies/lownodeutilization.go:134-156 | The budget loop's totals are the per-resource slack of the low nodes. CPU and memory count only when targeted. |
| Eviction.EvictPodsFromTargetNodes | pkg/descheduler/strategies/lownodeutilization.go:129-172 | The result counts the pods evicted by the pass over a non-increasing permutation of the target nodes, starting from the low nodes' slack. The array holds the nodes with their final usage. |
| Eviction.EvictSortedNodes | pkg/descheduler/strategies/lownodeutilization.go:158-171 | Draining the nodes in array order gives the pass's final usages in place and its eviction count. |
| Strategy.LowNodeUtilization | pkg/descheduler/strategies/lownodeutilization.go:44-77 | Each of the seven early returns happens exactly when its guard is the first to hold. Eviction happens exactly when all of the following hold: the strategy is enabled, both maps are valid, there are enough low nodes but not all nodes are low, and there is a target node. The count is that of the pass over the sorted target nodes. |
| Strategy.AllLowLeavesNoTarget | pkg/descheduler/strategies/lownodeutilization.go:63-75 | When every listed node comes from the node list, "all nodes low" leaves no target node. That guard therefore never decides whether eviction happens. |
| Strategy.RequestlessPodsIgnorePodBudget | pkg/descheduler/strategies/lownodeutilization.go:185-213 | Pods that request no CPU and no memory are all evicted while CPU stays above target, with the pod budget going negative. |
| Strategy.ScenarioSnapshotA | pkg/descheduler/strategies/lownodeutilization.go:275-331 | Node A's two non-removable pods give A usage of 10% CPU, 12.5% memory and 20% pods. Both pods are in A's non-removable tier. |
| Strategy.SystemPodsOfBTiers | pkg/descheduler/strategies/lownodeutilization.go:287-291 | B's three loaded pods have no creator reference, so all of them go to the non-removable tier. |
| Strategy.IdlePodsOfBTiers | pkg/descheduler/strategies/lownodeutilization.go:292-294 | B's five idle pods are removable and best-effort, so all of them go to the best-effort tier. |
| Strategy.ScenarioTiersB | pkg/descheduler/strategies/lownodeutilization.go:281-299 | B's pods split into its three loaded pods (non-removable) and its five idle pods (best-effort). The other tiers are empty. |
| Strategy.ScenarioRequestsB | pkg/descheduler/strategies/lownodeutilization.go:301-316 | B's requests total 1800 millicores and 3.5 GiB, all from the loaded pods. |
| Strategy.ScenarioSnapshotB | pkg/descheduler/strategies/lownodeutilization.go:275-331 | Node B's eight pods give B usage of 90% CPU, 87.5% memory and 80% pods. |
| Strategy.ScenarioClasses | pkg/descheduler/strategies/lownodeutilization.go:117-124 | In the worked scenario, whose nodes are built from their pods, node A is low and node B is a target. |
| Strategy.ScenarioBudget | pkg/descheduler/strategies/lownodeutilization.go:134-156 | Node A leaves 3 pods, 800 millicores and 37.5% of 4 GiB as budget. |
| Strategy.ScenarioOverrun | pkg/descheduler/strategies/lownodeutilization.go:185-213 | With a pod budget of 3, all five of B's best-effort pods are evicted, which leaves the pod budget at -2. |

## Left out

- Listing each node's pods (`CreateNodePodsMap`, lines 236-247) is cluster I/O. Its result is the input `npm`, one entry per node whose listing succeeded. A node listed twice is not collapsed into one entry, as a Go map keyed by node pointer would do.
- The eviction call is an oracle `evict: Pod -> bool`. The dry-run flag, the eviction API version and the client only reach that call.
- The pod helpers (mirror, local storage, creator reference, daemon set, critical, QoS class, requests-and-limits failure) are taken as given fields of `Pod`. Their own logic is not part of this model.
- `GetResourceRequest` is read from the same request map that the usage totals use.
- A pod's QoS class is a given field and is not tied to its request map. Go derives best-effort from the absence of requests and limits. The model therefore also admits a best-effort pod that requests CPU or memory. `Eviction.Charge` would subtract such a pod's requests on eviction, although `Utilization.Requested` never added them. No proved property depends on this.
- Percentages and budgets are exact reals, so float64 rounding is not modelled.
- Requests are whole numbers (millicores and bytes). Each pod's request is added as an integer, and the total is converted to a percentage once. The source adds `resource.Quantity` values and rounds the sum once with `MilliValue()` or `Value()`. The model does not capture fractional quantities or that rounding step.
- Every node is assumed to have positive CPU, memory and pod capacity. In Go, a zero capacity yields Inf or NaN percentages, and the model does not follow those values.
- Go's unspecified map iteration order is modelled by quantifiers, plus scans over an explicit key order that are proved order-free. The order of nodes within a class list follows the order of `npm`.
- Go nil maps are modelled as empty maps. For both validators a nil map and an empty map give the same verdict.
- Logging and the option plumbing (`DeschedulerServer`, strategy parameters) are left out. Their values are inputs.
- The return value of `evictPodsFromTargetNodes` is discarded by its caller. The model reports it in `Evicted(count)`.
- Eviction.EvictAcrossAccounting: there is no bound of evictions by the pod budget, because the code keeps evicting while any budget is positive (see `Strategy.ScenarioOverrun`).
- Ordering.SortNodesByUsage: the order of nodes with equal keys is not fixed, because the source hands the comparator to an unstable sort.
