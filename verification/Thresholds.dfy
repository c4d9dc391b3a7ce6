/**
 * Leave-one-case-out thresholds: the registry of `g03_readiness.py`, the one the separability probe
 * builds for itself, and their independence of the held-out case.
 */
module Thresholds {
  import opened Prelude
  import opened Intervals

  type Label = string

  datatype Feature = TraceActivity | RootSignal

  /** The measurements of one feature: five healthy windows, two fault windows. */
  datatype Windows = Windows(healthy: seq<real>, fault: seq<real>)

  type Packet = map<(Label, Feature), Windows>

  /**
   * Quanta and relative floors, as registered; floors exist for root signals only. A floor is any
   * function of the healthy median; the registered ones are fractions of it.
   */
  datatype Registry = Registry(quantum: map<(Label, Feature), real>, floors: map<Label, real -> real>)

  const HEALTHY_WINDOWS := 5
  const FAULT_WINDOWS := 2
  const PERCENTILE := 0.99

  /** The packets `validate_observation_packet_v3` lets through, reduced to what the thresholds read. */
  ghost predicate Complete(packet: Packet, root: Label, feature: Feature) {
    && (root, feature) in packet
    && |packet[(root, feature)].healthy| == HEALTHY_WINDOWS
    && |packet[(root, feature)].fault| == FAULT_WINDOWS
  }

  /** Cases in the order of their identifiers. */
  ghost predicate CompleteCases(cases: seq<Packet>, root: Label, feature: Feature) {
    forall i | 0 <= i < |cases| :: Complete(cases[i], root, feature)
  }

  // ---------------------------------------------------------------------------------------------
  // Nearest rank.

  function Ceiling(x: real): int {
    if x.Floor as real == x then x.Floor else x.Floor + 1
  }

  lemma {:induction false} ShareBounds(percentile: real, size: real)
    requires 0.0 < percentile <= 1.0 && size > 0.0
    ensures 0.0 < percentile * size <= size
  {
    assert (1.0 - percentile) * size >= 0.0;
  }

  /** The place at a positive share of at most `n`. */
  function RankAt(share: real, n: nat): (rank: nat)
    requires 0.0 < share <= n as real
    ensures rank < n
  {
    Ceiling(share) - 1
  }

  lemma RankIsShare(share: real, n: nat)
    requires 0.0 < share <= n as real
    ensures (RankAt(share, n) as real) < share <= (RankAt(share, n) + 1) as real
  {
  }

  /** `max(0, ceil(percentile * n) - 1)`, where the maximum never acts. */
  function Rank(percentile: real, n: nat): (rank: nat)
    requires n > 0 && 0.0 < percentile <= 1.0
    ensures rank < n
  {
    ShareBounds(percentile, n as real);
    RankAt(percentile * (n as real), n)
  }

  function NearestRank(values: seq<real>, percentile: real): real
    requires values != [] && 0.0 < percentile <= 1.0
  {
    Sorted(values, |values|)[Rank(percentile, |values|)]
  }

  /** How many of the first `n` values are at most `v`, or below it. */
  function AtMost(values: seq<real>, n: nat, v: real): nat
    requires n <= |values|
  {
    if n == 0 then 0 else AtMost(values, n - 1, v) + if values[n - 1] <= v then 1 else 0
  }

  function Below(values: seq<real>, n: nat, v: real): nat
    requires n <= |values|
  {
    if n == 0 then 0 else Below(values, n - 1, v) + if values[n - 1] < v then 1 else 0
  }

  function HeadAtMost(s: seq<real>, v: real): nat {
    if s == [] then 0 else (if s[0] <= v then 1 else 0) + HeadAtMost(s[1..], v)
  }

  function HeadBelow(s: seq<real>, v: real): nat {
    if s == [] then 0 else (if s[0] < v then 1 else 0) + HeadBelow(s[1..], v)
  }

  lemma {:induction false} InsertCounts(x: real, s: seq<real>, v: real)
    ensures HeadAtMost(Insert(x, s), v) == HeadAtMost(s, v) + if x <= v then 1 else 0
    ensures HeadBelow(Insert(x, s), v) == HeadBelow(s, v) + if x < v then 1 else 0
    decreases |s|
  {
    if s == [] || x < s[0] {
      assert ([x] + s)[1..] == s;
    } else {
      InsertCounts(x, s[1..], v);
      assert Insert(x, s)[1..] == Insert(x, s[1..]);
    }
  }

  lemma {:induction false} SortedCounts(values: seq<real>, n: nat, v: real)
    requires n <= |values|
    ensures HeadAtMost(Sorted(values, n), v) == AtMost(values, n, v)
    ensures HeadBelow(Sorted(values, n), v) == Below(values, n, v)
    decreases n
  {
    if n > 0 {
      SortedCounts(values, n - 1, v);
      InsertCounts(values[n - 1], Sorted(values, n - 1), v);
    }
  }

  lemma {:induction false} NoneBelow(s: seq<real>, v: real)
    requires forall i | 0 <= i < |s| :: v <= s[i]
    ensures HeadBelow(s, v) == 0
    decreases |s|
  {
    if s != [] {
      NoneBelow(s[1..], v);
    }
  }

  /** In an ascending list more than `k` entries are at most the one at `k`, and at most `k` are below it. */
  lemma {:induction false} RankCounts(s: seq<real>, k: nat)
    requires Ascending(s) && k < |s|
    ensures HeadAtMost(s, s[k]) >= k + 1 && HeadBelow(s, s[k]) <= k
    decreases k
  {
    if k == 0 {
      NoneBelow(s[1..], s[0]);
    } else {
      RankCounts(s[1..], k - 1);
      assert s[1..][k - 1] == s[k];
      assert s[0] <= s[k];
    }
  }

  lemma {:induction false} AtRank(values: seq<real>, rank: nat)
    requires rank < |values|
    ensures
      var v := Sorted(values, |values|)[rank];
      v in values && AtMost(values, |values|, v) >= rank + 1 && Below(values, |values|, v) <= rank
  {
    var sorted := Sorted(values, |values|);
    SortedAscends(values, |values|);
    RankCounts(sorted, rank);
    SortedCounts(values, |values|, sorted[rank]);
    SortedPermutes(values, |values|);
    assert values[..|values|] == values;
    assert sorted[rank] in multiset(sorted);
  }

  /**
   * What the nearest rank means: at least the given share of the values are at most the result,
   * fewer than that share are below it, and it is one of the values.
   */
  lemma {:induction false} NearestRankIsPercentile(values: seq<real>, percentile: real)
    requires values != [] && 0.0 < percentile <= 1.0
    ensures
      var v, share := NearestRank(values, percentile), percentile * (|values| as real);
      v in values && AtMost(values, |values|, v) as real >= share && (Below(values, |values|, v) as real) < share
  {
    AtRank(values, Rank(percentile, |values|));
    ShareBounds(percentile, |values| as real);
    RankIsShare(percentile * (|values| as real), |values|);
  }

  // ---------------------------------------------------------------------------------------------
  // Drift pools.

  function Drifts(values: seq<real>): seq<real>
    requires |values| == HEALTHY_WINDOWS
  {
    seq(HEALTHY_WINDOWS - 1, i requires 0 <= i < HEALTHY_WINDOWS - 1 =>
      if values[i + 1] > values[i] then values[i + 1] - values[i] else 0.0)
  }

  function Median(values: seq<real>): real
    requires |values| == HEALTHY_WINDOWS
  {
    Sorted(values, HEALTHY_WINDOWS)[2]
  }

  /** The drifts of the first `n` cases without the held-out one. */
  function Pool(cases: seq<Packet>, n: nat, heldOut: nat, root: Label, feature: Feature): (pool: seq<real>)
    requires n <= |cases| && CompleteCases(cases, root, feature)
    ensures |pool| == 4 * (if heldOut < n then n - 1 else n)
  {
    if n == 0 then [] else
      Pool(cases, n - 1, heldOut, root, feature)
      + if n - 1 == heldOut then [] else Drifts(cases[n - 1][(root, feature)].healthy)
  }

  function Max(a: real, b: real): real {
    if a >= b then a else b
  }

  /** A registered relative floor, on the case's own healthy median, can only raise a threshold. */
  function Floored(r: Registry, threshold: real, healthy: seq<real>, root: Label): real
    requires |healthy| == HEALTHY_WINDOWS
  {
    if root in r.floors then Max(threshold, r.floors[root](Median(healthy))) else threshold
  }

  /** The threshold a pool of drifts gives: nearest rank plus quantum, raised by a floor for root signals. */
  function FromPool(r: Registry, pool: seq<real>, healthy: seq<real>, root: Label, feature: Feature): real
    requires pool != [] && |healthy| == HEALTHY_WINDOWS && (root, feature) in r.quantum
  {
    var pooled := NearestRank(pool, PERCENTILE) + r.quantum[(root, feature)];
    if feature == RootSignal then Floored(r, pooled, healthy, root) else pooled
  }

  /** `build_deterministic_thresholds_v3` for one case, label and feature. */
  function Threshold(r: Registry, cases: seq<Packet>, heldOut: nat, root: Label, feature: Feature): real
    requires heldOut < |cases| && |cases| > 1 && CompleteCases(cases, root, feature)
    requires (root, feature) in r.quantum
  {
    FromPool(r, Pool(cases, |cases|, heldOut, root, feature), cases[heldOut][(root, feature)].healthy, root, feature)
  }

  /** The pooling loop over the other packets of one fold. */
  method PooledDrifts(cases: seq<Packet>, heldOut: nat, root: Label, feature: Feature) returns (drifts: seq<real>)
    requires CompleteCases(cases, root, feature)
    ensures drifts == Pool(cases, |cases|, heldOut, root, feature)
  {
    drifts := [];
    for i := 0 to |cases|
      invariant drifts == Pool(cases, i, heldOut, root, feature)
    {
      if i != heldOut {
        drifts := drifts + Drifts(cases[i][(root, feature)].healthy);
      }
    }
  }

  method BuildThreshold(r: Registry, cases: seq<Packet>, heldOut: nat, root: Label, feature: Feature) returns (threshold: real)
    requires heldOut < |cases| && |cases| > 1 && CompleteCases(cases, root, feature) && (root, feature) in r.quantum
    ensures threshold == Threshold(r, cases, heldOut, root, feature)
  {
    var drifts := PooledDrifts(cases, heldOut, root, feature);
    threshold := NearestRank(drifts, PERCENTILE) + r.quantum[(root, feature)];
    if feature == RootSignal && root in r.floors {
      threshold := Max(threshold, r.floors[root](Median(cases[heldOut][(root, feature)].healthy)));
    }
  }

  ghost predicate Measured(r: Registry, cases: seq<Packet>, key: (Label, Feature)) {
    CompleteCases(cases, key.0, key.1) && key in r.quantum
  }

  /** The thresholds of one case as a function of label and feature. */
  ghost function ThresholdsOf(r: Registry, cases: seq<Packet>, heldOut: nat): ((Label, Feature)) -> real {
    key =>
      if heldOut < |cases| && |cases| > 1 && Measured(r, cases, key) then Threshold(r, cases, heldOut, key.0, key.1) else 0.0
  }

  type Frozen = map<(Label, Feature), real>

  /** `frozen` holds both features of each of the first `n` labels, and nothing else. */
  ghost predicate FrozenFor(thresholds: ((Label, Feature)) -> real, labels: seq<Label>, n: nat, frozen: Frozen)
    requires n <= |labels|
  {
    && (forall key :: key in frozen <==> key.0 in labels[..n])
    && (forall key | key in frozen :: frozen[key] == thresholds(key))
  }

  /** The loop body for one label: both features. */
  method BuildLabel(r: Registry, cases: seq<Packet>, heldOut: nat, root: Label, before: Frozen) returns (frozen: Frozen)
    requires heldOut < |cases| && |cases| > 1
    requires forall feature :: Measured(r, cases, (root, feature))
    ensures
      var thresholds := ThresholdsOf(r, cases, heldOut);
      frozen == before[(root, TraceActivity) := thresholds((root, TraceActivity))][(root, RootSignal) := thresholds((root, RootSignal))]
  {
    assert Measured(r, cases, (root, TraceActivity)) && Measured(r, cases, (root, RootSignal));
    var activity := BuildThreshold(r, cases, heldOut, root, TraceActivity);
    var signal := BuildThreshold(r, cases, heldOut, root, RootSignal);
    frozen := before[(root, TraceActivity) := activity][(root, RootSignal) := signal];
  }

  lemma {:induction false} FrozenStep(thresholds: ((Label, Feature)) -> real, labels: seq<Label>, n: nat, before: Frozen, frozen: Frozen)
    requires n < |labels| && FrozenFor(thresholds, labels, n, before)
    requires frozen == before[(labels[n], TraceActivity) := thresholds((labels[n], TraceActivity))][(labels[n], RootSignal) := thresholds((labels[n], RootSignal))]
    ensures FrozenFor(thresholds, labels, n + 1, frozen)
  {
    assert labels[..n + 1] == labels[..n] + [labels[n]];
    forall key ensures key in frozen <==> key.0 in labels[..n + 1] {
      assert key.1 == TraceActivity || key.1 == RootSignal;
    }
  }

  ghost predicate MeasuredLabels(r: Registry, cases: seq<Packet>, labels: seq<Label>) {
    forall root, feature | root in labels :: Measured(r, cases, (root, feature))
  }

  /** The loop over the labels for one held-out case. */
  method BuildCase(r: Registry, cases: seq<Packet>, heldOut: nat, labels: seq<Label>) returns (frozen: Frozen)
    requires heldOut < |cases| && |cases| > 1 && MeasuredLabels(r, cases, labels)
    ensures FrozenFor(ThresholdsOf(r, cases, heldOut), labels, |labels|, frozen)
  {
    frozen := map[];
    for n := 0 to |labels|
      invariant FrozenFor(ThresholdsOf(r, cases, heldOut), labels, n, frozen)
    {
      var before := frozen;
      frozen := BuildLabel(r, cases, heldOut, labels[n], before);
      FrozenStep(ThresholdsOf(r, cases, heldOut), labels, n, before, frozen);
    }
  }

  /** The loop over the cases: each is held out once against the registered number of others. */
  method BuildDeterministicThresholds(r: Registry, cases: seq<Packet>, labels: seq<Label>, others: nat) returns (registry: Option<seq<Frozen>>)
    requires others > 0 && MeasuredLabels(r, cases, labels)
    ensures registry == None <==> cases != [] && |cases| - 1 != others
    ensures registry.Some? ==>
              && |registry.value| == |cases|
              && forall i | 0 <= i < |cases| :: FrozenFor(ThresholdsOf(r, cases, i), labels, |labels|, registry.value[i])
  {
    var built: seq<Frozen> := [];
    for i := 0 to |cases|
      invariant |built| == i && (i > 0 ==> |cases| - 1 == others)
      invariant forall k | 0 <= k < i :: FrozenFor(ThresholdsOf(r, cases, k), labels, |labels|, built[k])
    {
      if |cases| - 1 != others {
        return None;
      }
      var frozen := BuildCase(r, cases, i, labels);
      built := built + [frozen];
    }
    return Some(built);
  }

  lemma {:induction false} PoolIgnoresHeldOut(cases: seq<Packet>, others: seq<Packet>, n: nat, heldOut: nat, root: Label, feature: Feature)
    requires n <= |cases| == |others|
    requires CompleteCases(cases, root, feature) && CompleteCases(others, root, feature)
    requires forall i | 0 <= i < |cases| && i != heldOut :: others[i] == cases[i]
    ensures Pool(others, n, heldOut, root, feature) == Pool(cases, n, heldOut, root, feature)
    decreases n
  {
    if n > 0 {
      PoolIgnoresHeldOut(cases, others, n - 1, heldOut, root, feature);
    }
  }

  /**
   * Non-interference: replacing the held-out case's packet leaves its threshold as it is for every
   * label without a relative floor; with a floor, it can matter only through the median of the
   * case's own healthy windows.
   */
  lemma {:induction false} HeldOutCaseDoesNotInterfere(r: Registry, cases: seq<Packet>, heldOut: nat, packet: Packet, root: Label, feature: Feature)
    requires heldOut < |cases| && |cases| > 1 && CompleteCases(cases, root, feature) && Complete(packet, root, feature)
    requires (root, feature) in r.quantum
    ensures CompleteCases(cases[heldOut := packet], root, feature)
    ensures
      root !in r.floors || feature == TraceActivity
      || Median(packet[(root, feature)].healthy) == Median(cases[heldOut][(root, feature)].healthy)
      ==> Threshold(r, cases[heldOut := packet], heldOut, root, feature) == Threshold(r, cases, heldOut, root, feature)
  {
    PoolIgnoresHeldOut(cases, cases[heldOut := packet], |cases|, heldOut, root, feature);
  }

  // ---------------------------------------------------------------------------------------------
  // The separability probe's own registry.

  /** The drifts of the first `m` cases of a fold. */
  function FoldDrifts(cases: seq<Packet>, fold: seq<nat>, m: nat, root: Label): seq<real>
    requires m <= |fold| && (forall i | 0 <= i < |fold| :: fold[i] < |cases|) && CompleteCases(cases, root, RootSignal)
  {
    if m == 0 then [] else
      FoldDrifts(cases, fold, m - 1, root) + Drifts(cases[fold[m - 1]][(root, RootSignal)].healthy)
  }

  /** `_frozen_thresholds_loo` for one case and label: absent when the drift pool has the wrong size. */
  function FrozenThreshold(r: Registry, cases: seq<Packet>, heldOut: nat, root: Label): Option<real>
    requires heldOut < |cases| && |cases| > 1 && CompleteCases(cases, root, RootSignal)
    requires (root, RootSignal) in r.quantum
  {
    var fold := Training(|cases|, heldOut);
    var drifts := FoldDrifts(cases, fold, |fold|, root);
    if |drifts| != 4 * (|cases| - 1) then None
    else Some(FromPool(r, drifts, cases[heldOut][(root, RootSignal)].healthy, root, RootSignal))
  }

  lemma {:induction false} FoldPrefix(cases: seq<Packet>, fold: seq<nat>, more: seq<nat>, m: nat, root: Label)
    requires m <= |fold| && (forall i | 0 <= i < |fold + more| :: (fold + more)[i] < |cases|)
    requires forall i | 0 <= i < |fold| :: fold[i] < |cases|
    requires CompleteCases(cases, root, RootSignal)
    ensures FoldDrifts(cases, fold + more, m, root) == FoldDrifts(cases, fold, m, root)
    decreases m
  {
    if m > 0 {
      FoldPrefix(cases, fold, more, m - 1, root);
    }
  }

  /** One more case in a fold adds its drifts. */
  lemma {:induction false} FoldGrows(cases: seq<Packet>, before: seq<nat>, last: nat, root: Label)
    requires (forall i | 0 <= i < |before| :: before[i] < |cases|) && last < |cases| && CompleteCases(cases, root, RootSignal)
    ensures FoldDrifts(cases, before + [last], |before| + 1, root)
         == FoldDrifts(cases, before, |before|, root) + Drifts(cases[last][(root, RootSignal)].healthy)
  {
    FoldPrefix(cases, before, [last], |before|, root);
    FoldLast(cases, before, last, root);
  }

  /** The drifts of the training fold among the first `n` cases are their pool. */
  ghost predicate FoldPools(cases: seq<Packet>, n: nat, heldOut: nat, root: Label) {
    && n <= |cases| && CompleteCases(cases, root, RootSignal)
    && (forall i | 0 <= i < |Training(n, heldOut)| :: Training(n, heldOut)[i] < |cases|)
    && FoldDrifts(cases, Training(n, heldOut), |Training(n, heldOut)|, root) == Pool(cases, n, heldOut, root, RootSignal)
  }

  lemma {:induction false} FoldNext(cases: seq<Packet>, n: nat, heldOut: nat, root: Label)
    requires n < |cases| && FoldPools(cases, n, heldOut, root)
    ensures FoldPools(cases, n + 1, heldOut, root)
  {
    if n == heldOut {
      assert Training(n + 1, heldOut) == Training(n, heldOut);
    } else {
      assert Training(n + 1, heldOut) == Training(n, heldOut) + [n];
      FoldGrows(cases, Training(n, heldOut), n, root);
    }
  }

  lemma {:induction false} FoldIsPool(cases: seq<Packet>, n: nat, heldOut: nat, root: Label)
    requires n <= |cases| && CompleteCases(cases, root, RootSignal)
    ensures FoldPools(cases, n, heldOut, root)
  {
    forall k: nat | k < n && FoldPools(cases, k, heldOut, root)
      ensures FoldPools(cases, k + 1, heldOut, root)
    {
      FoldNext(cases, k, heldOut, root);
    }
    Induction(n, (k: nat) => FoldPools(cases, k, heldOut, root));
  }

  lemma FoldLast(cases: seq<Packet>, before: seq<nat>, last: nat, root: Label)
    requires (forall i | 0 <= i < |before| :: before[i] < |cases|) && last < |cases| && CompleteCases(cases, root, RootSignal)
    ensures FoldDrifts(cases, before + [last], |before| + 1, root)
         == FoldDrifts(cases, before + [last], |before|, root) + Drifts(cases[last][(root, RootSignal)].healthy)
  {
  }

  /** The probe's thresholds are exactly the registry's root-signal thresholds, for every case and label. */
  lemma {:induction false} FrozenThresholdsAgree(r: Registry, cases: seq<Packet>, heldOut: nat, root: Label)
    requires heldOut < |cases| && |cases| > 1 && CompleteCases(cases, root, RootSignal)
    requires (root, RootSignal) in r.quantum
    ensures FrozenThreshold(r, cases, heldOut, root) == Some(Threshold(r, cases, heldOut, root, RootSignal))
  {
    FoldIsPool(cases, |cases|, heldOut, root);
  }
}
