/**
 Resource names, percentages and absolute quantities as the low-node-utilization
 strategy sees them, and the capacity a node offers.
 */
module Resources {

  /** The three resources the strategy compares; any other name is carried as Other. */
  datatype Resource = CPU | Memory | Pods | Other(name: string)

  /** A percentage per resource: a node's usage, or a threshold configuration. */
  type ResourceThresholds = map<Resource, real>

  /** Absolute quantities per resource: CPU in millicores, memory in bytes, pods as a count. */
  type ResourceList = map<Resource, nat>

  /** The resources every comparison and every sum is restricted to. */
  predicate IsTracked(r: Resource) {
    r == CPU || r == Memory || r == Pods
  }

  /** Reading a percentage map at a missing key yields zero, as a Go map does. */
  function Percent(m: ResourceThresholds, r: Resource): real {
    if r in m then m[r] else 0.0
  }

  /** Reading a quantity at a missing key yields the zero quantity. */
  function Quantity(l: ResourceList, r: Resource): nat {
    if r in l then l[r] else 0
  }

  /** A node: its name, its declared capacity and its (possibly empty) allocatable list. */
  datatype Node = Node(name: string, capacity: ResourceList, allocatable: ResourceList)

  /** The capacity every percentage of a node is taken against: allocatable when it is non-empty. */
  function EffectiveCapacity(n: Node): (c: ResourceList)
  {
    if |n.allocatable| > 0 then n.allocatable else n.capacity
  }

  /**
   The effective capacity is the allocatable list when that is non-empty and the
   capacity list otherwise, so it is empty only when both are.
   */
  lemma CapacityFallback(n: Node)
    ensures |n.allocatable| > 0 ==> EffectiveCapacity(n) == n.allocatable
    ensures |n.allocatable| == 0 ==> EffectiveCapacity(n) == n.capacity
    ensures |EffectiveCapacity(n)| > 0 <==> |n.allocatable| > 0 || |n.capacity| > 0
  {
  }

  /** The capacities the strategy divides by are all non-zero. */
  predicate PositiveCapacity(c: ResourceList) {
    Quantity(c, CPU) > 0 && Quantity(c, Memory) > 0 && Quantity(c, Pods) > 0
  }
}
