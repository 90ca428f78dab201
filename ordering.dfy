/**
 Ordering target nodes by their summed CPU, memory and pods usage, largest first.
 */
module Ordering {
  import opened Resources
  import opened Utilization

  /** The sort key: CPU + memory + pods usage; other keys and absent keys contribute nothing. */
  function UsageSum(usage: ResourceThresholds): real {
    Percent(usage, CPU) + Percent(usage, Memory) + Percent(usage, Pods)
  }

  /** The key loop of the comparator, summing tracked values in the order Go visits the usage keys. */
  function SumScan(keys: seq<Resource>, usage: ResourceThresholds): (sum: real)
    requires forall r | r in keys :: r in usage
    ensures (forall r | r in keys :: usage[r] >= 0.0) ==> sum >= 0.0
  {
    if keys == [] then 0.0
    else (if IsTracked(keys[0]) then usage[keys[0]] else 0.0) + SumScan(keys[1..], usage)
  }

  /** The tracked part of usage restricted to the key set s. */
  function TrackedSum(s: set<Resource>, usage: ResourceThresholds): real {
    (if CPU in s then Percent(usage, CPU) else 0.0)
    + (if Memory in s then Percent(usage, Memory) else 0.0)
    + (if Pods in s then Percent(usage, Pods) else 0.0)
  }

  /** Summing over distinct keys visits each tracked key once: the result is the tracked sum over those keys. */
  lemma {:induction false} SumScanCoversKeys(keys: seq<Resource>, usage: ResourceThresholds)
    requires forall r | r in keys :: r in usage
    requires forall i, j | 0 <= i < j < |keys| :: keys[i] != keys[j]
    ensures SumScan(keys, usage) == TrackedSum((set r | r in keys), usage)
  {
    if keys != [] {
      var rest := keys[1..];
      assert forall i, j | 0 <= i < j < |rest| :: rest[i] != rest[j] by {
        forall i, j | 0 <= i < j < |rest| ensures rest[i] != rest[j] {
          assert rest[i] == keys[i + 1] && rest[j] == keys[j + 1];
        }
      }
      SumScanCoversKeys(rest, usage);
      assert keys[0] !in rest by {
        forall j | 0 <= j < |rest| ensures rest[j] != keys[0] {
          assert rest[j] == keys[j + 1];
        }
      }
      assert (set r | r in keys) == {keys[0]} + (set r | r in rest);
    }
  }

  /** Whatever order Go visits a usage map's keys in, the comparator's sum is the sort key. */
  lemma SumScanIsOrderFree(keys: seq<Resource>, usage: ResourceThresholds)
    requires forall r | r in keys :: r in usage
    requires forall r | r in usage :: r in keys
    requires forall i, j | 0 <= i < j < |keys| :: keys[i] != keys[j]
    ensures SumScan(keys, usage) == UsageSum(usage)
  {
    SumScanCoversKeys(keys, usage);
    assert (set r | r in keys) == usage.Keys;
  }

  function Key(n: NodeUsage): real {
    UsageSum(n.usage)
  }

  /** Summed usage never increases along the sequence. */
  predicate NonIncreasing(nodes: seq<NodeUsage>) {
    forall i, j | 0 <= i < j < |nodes| :: Key(nodes[i]) >= Key(nodes[j])
  }

  /** The first n nodes are in non-increasing order of summed usage. */
  predicate SortedPrefix(nodes: seq<NodeUsage>, n: int) {
    forall a, b | 0 <= a < b < n && b < |nodes| :: Key(nodes[a]) >= Key(nodes[b])
  }

  /** Exchanges two neighbouring nodes. */
  method SwapDown(nodes: array<NodeUsage>, j: int)
    requires 0 < j < nodes.Length
    modifies nodes
    ensures nodes[..] == old(nodes[..])[j - 1 := old(nodes[j])][j := old(nodes[j - 1])]
    ensures multiset(nodes[..]) == old(multiset(nodes[..]))
  {
    nodes[j - 1], nodes[j] := nodes[j], nodes[j - 1];
  }

  /** Moves nodes[i] left past every smaller neighbour, extending the sorted prefix by one. */
  method InsertDescending(nodes: array<NodeUsage>, i: int)
    requires 0 < i < nodes.Length
    requires SortedPrefix(nodes[..], i)
    modifies nodes
    ensures SortedPrefix(nodes[..], i + 1)
    ensures multiset(nodes[..]) == old(multiset(nodes[..]))
  {
    var j := i;
    while j > 0 && Key(nodes[j - 1]) < Key(nodes[j])
      invariant 0 <= j <= i
      invariant forall a, b | 0 <= a < b <= i && a != j && b != j :: Key(nodes[a]) >= Key(nodes[b])
      invariant forall b | j < b <= i :: Key(nodes[j]) > Key(nodes[b])
      invariant multiset(nodes[..]) == old(multiset(nodes[..]))
    {
      SwapDown(nodes, j);
      j := j - 1;
    }
  }

  /**
   Sorts the nodes in place, largest summed usage first. The order among nodes
   with equal sums is not specified: the comparator is handed to an unstable sort.
   */
  method SortNodesByUsage(nodes: array<NodeUsage>)
    modifies nodes
    ensures NonIncreasing(nodes[..])
    ensures multiset(nodes[..]) == old(multiset(nodes[..]))
  {
    if nodes.Length == 0 {
      return;
    }
    var i := 1;
    while i < nodes.Length
      invariant 1 <= i <= nodes.Length
      invariant SortedPrefix(nodes[..], i)
      invariant multiset(nodes[..]) == old(multiset(nodes[..]))
    {
      InsertDescending(nodes, i);
      i := i + 1;
    }
  }
}
