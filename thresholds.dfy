/**
 Sanity checks on the two threshold configurations, and the two comparisons of a
 node's usage against a threshold map.

 Go iterates over the usage map in an unspecified order. The comparisons are
 stated here as quantifiers over the map's keys; AboveScan and LowScan replay the
 source's early-return loops over one explicit key order, and the lemmas below
 show that every order gives the quantifier's answer.
 */
module Thresholds {
  import opened Resources

  /** The low thresholds are usable: some threshold is given for CPU, memory or pods. */
  function ValidateThresholds(t: ResourceThresholds): (ok: bool)
    ensures ok <==> (CPU in t || Memory in t || Pods in t)
    ensures ok ==> |t| > 0
  {
    t != map[] && exists r | r in t :: IsTracked(r)
  }

  /** The target thresholds are usable: a pods threshold is given. */
  function ValidateTargetThresholds(t: ResourceThresholds): (ok: bool)
    ensures ok <==> Pods in t
    ensures ok ==> |t| > 0
  {
    t != map[] && Pods in t
  }

  /** Resource r of the usage exceeds its threshold; untracked names and names absent from t never do. */
  predicate Exceeds(usage: ResourceThresholds, t: ResourceThresholds, r: Resource)
    requires r in usage
  {
    IsTracked(r) && r in t && usage[r] > t[r]
  }

  /** Some tracked resource with a threshold is used above it; thresholds naming none of CPU, memory and pods are never exceeded. */
  predicate IsNodeAboveTargetUtilization(usage: ResourceThresholds, t: ResourceThresholds)
    ensures !(CPU in t || Memory in t || Pods in t) ==> !IsNodeAboveTargetUtilization(usage, t)
    ensures IsNodeAboveTargetUtilization(usage, t) ==> |usage| > 0
  {
    exists r | r in usage :: Exceeds(usage, t, r)
  }

  /** Every tracked resource with a threshold is used at most up to it; an empty usage map is always low. */
  predicate IsNodeWithLowUtilization(usage: ResourceThresholds, t: ResourceThresholds)
    ensures !(CPU in t || Memory in t || Pods in t) ==> IsNodeWithLowUtilization(usage, t)
    ensures usage == map[] ==> IsNodeWithLowUtilization(usage, t)
  {
    forall r | r in usage && IsTracked(r) && r in t :: usage[r] <= t[r]
  }

  /** The loop of IsNodeAboveTargetUtilization, visiting the usage keys in the order given. */
  function AboveScan(keys: seq<Resource>, usage: ResourceThresholds, t: ResourceThresholds): (above: bool)
    requires forall r | r in keys :: r in usage
    ensures above ==> exists k | k in keys :: IsTracked(k) && k in t
  {
    if keys == [] then false
    else if IsTracked(keys[0]) && keys[0] in t && usage[keys[0]] > t[keys[0]] then true
    else AboveScan(keys[1..], usage, t)
  }

  /** The loop of IsNodeWithLowUtilization, visiting the usage keys in the order given. */
  function LowScan(keys: seq<Resource>, usage: ResourceThresholds, t: ResourceThresholds): (isLow: bool)
    requires forall r | r in keys :: r in usage
    ensures isLow == !AboveScan(keys, usage, t)
  {
    if keys == [] then true
    else if IsTracked(keys[0]) && keys[0] in t && usage[keys[0]] > t[keys[0]] then false
    else LowScan(keys[1..], usage, t)
  }

  /** The above-target scan returns true exactly when one of the visited keys exceeds its threshold. */
  lemma {:induction false} AboveScanFinds(keys: seq<Resource>, usage: ResourceThresholds, t: ResourceThresholds)
    requires forall r | r in keys :: r in usage
    ensures AboveScan(keys, usage, t) <==> exists r | r in keys :: Exceeds(usage, t, r)
  {
    if keys != [] {
      AboveScanFinds(keys[1..], usage, t);
      assert forall r | r in keys :: r == keys[0] || r in keys[1..];
      if Exceeds(usage, t, keys[0]) {
        assert keys[0] in keys;
      }
    }
  }

  /** The low scan returns true exactly when none of the visited keys exceeds its threshold. */
  lemma {:induction false} LowScanFindsNone(keys: seq<Resource>, usage: ResourceThresholds, t: ResourceThresholds)
    requires forall r | r in keys :: r in usage
    ensures LowScan(keys, usage, t) <==> forall r | r in keys :: !Exceeds(usage, t, r)
  {
    if keys != [] {
      LowScanFindsNone(keys[1..], usage, t);
      assert forall r | r in keys :: r == keys[0] || r in keys[1..];
      if Exceeds(usage, t, keys[0]) {
        assert keys[0] in keys;
      }
    }
  }

  /** Whatever order Go visits the usage keys in, the loop decides "above target" as the quantifier does. */
  lemma AboveScanIsOrderFree(keys: seq<Resource>, usage: ResourceThresholds, t: ResourceThresholds)
    requires forall r | r in keys :: r in usage
    requires forall r | r in usage :: r in keys
    ensures AboveScan(keys, usage, t) == IsNodeAboveTargetUtilization(usage, t)
  {
    AboveScanFinds(keys, usage, t);
  }

  /** Whatever order Go visits the usage keys in, the loop decides "low" as the quantifier does. */
  lemma LowScanIsOrderFree(keys: seq<Resource>, usage: ResourceThresholds, t: ResourceThresholds)
    requires forall r | r in keys :: r in usage
    requires forall r | r in usage :: r in keys
    ensures LowScan(keys, usage, t) == IsNodeWithLowUtilization(usage, t)
  {
    LowScanFindsNone(keys, usage, t);
  }

  /** Against one threshold map, "low" is exactly "not above target". */
  lemma LowIsNotAbove(usage: ResourceThresholds, t: ResourceThresholds)
    ensures IsNodeWithLowUtilization(usage, t) <==> !IsNodeAboveTargetUtilization(usage, t)
  {
  }

  /** Only tracked keys present in both maps matter: changing or adding any other entry changes neither verdict. */
  lemma OnlySharedTrackedKeysMatter(usage: ResourceThresholds, t: ResourceThresholds, r: Resource, v: real)
    requires !IsTracked(r) || r !in t
    ensures IsNodeAboveTargetUtilization(usage[r := v], t) == IsNodeAboveTargetUtilization(usage, t)
    ensures IsNodeWithLowUtilization(usage[r := v], t) == IsNodeWithLowUtilization(usage, t)
  {
    var u := usage[r := v];
    if IsNodeAboveTargetUtilization(u, t) {
      var k :| k in u && Exceeds(u, t, k);
      assert k in usage && Exceeds(usage, t, k);
    }
    if IsNodeAboveTargetUtilization(usage, t) {
      var k :| k in usage && Exceeds(usage, t, k);
      assert k in u && Exceeds(u, t, k);
    }
  }
}
