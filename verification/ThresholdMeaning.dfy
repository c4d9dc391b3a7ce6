/**
 * What a leave-one-out threshold says of the healthy readings, window by window: the rise that at
 * least ninety-nine of a hundred steps of the other cases stay within, plus the quantum.
 */
module ThresholdMeaning {
  import opened Prelude
  import opened Intervals
  import opened Thresholds

  /** How many of the first `n` steps between consecutive readings rise by at most `p`. */
  function StepsWithin(healthy: seq<real>, n: nat, p: real): nat
    requires n < |healthy|
  {
    if n == 0 then 0 else StepsWithin(healthy, n - 1, p) + if healthy[n] - healthy[n - 1] <= p then 1 else 0
  }

  /** How many have a non-negative part, the rise or nothing, below `p`. */
  function StepsUnder(healthy: seq<real>, n: nat, p: real): nat
    requires n < |healthy|
  {
    if n == 0 then 0 else StepsUnder(healthy, n - 1, p) + if 0.0 < p && healthy[n] - healthy[n - 1] < p then 1 else 0
  }

  /** The same over the healthy windows of the other cases among the first `n`. */
  function OthersWithin(cases: seq<Packet>, n: nat, heldOut: nat, root: Label, feature: Feature, p: real): nat
    requires n <= |cases| && CompleteCases(cases, root, feature)
  {
    if n == 0 then 0 else
      OthersWithin(cases, n - 1, heldOut, root, feature, p)
      + if n - 1 == heldOut then 0 else StepsWithin(cases[n - 1][(root, feature)].healthy, 4, p)
  }

  function OthersUnder(cases: seq<Packet>, n: nat, heldOut: nat, root: Label, feature: Feature, p: real): nat
    requires n <= |cases| && CompleteCases(cases, root, feature)
  {
    if n == 0 then 0 else
      OthersUnder(cases, n - 1, heldOut, root, feature, p)
      + if n - 1 == heldOut then 0 else StepsUnder(cases[n - 1][(root, feature)].healthy, 4, p)
  }

  /** Some other case's reading rises by exactly this much from one window to the next. */
  ghost predicate SomeRise(cases: seq<Packet>, heldOut: nat, root: Label, feature: Feature, p: real)
    requires CompleteCases(cases, root, feature)
  {
    exists j, k | 0 <= j < |cases| && j != heldOut && 0 <= k < 4 :: RisesBy(cases[j][(root, feature)].healthy, k, p)
  }

  ghost predicate RisesBy(healthy: seq<real>, k: int, p: real) {
    0 <= k < |healthy| - 1 && healthy[k + 1] - healthy[k] == p
  }

  // ---------------------------------------------------------------------------------------------
  // Counting in a pool is counting steps.

  lemma {:induction false} CountsSplit(a: seq<real>, b: seq<real>, n: nat, v: real)
    requires n <= |b|
    ensures AtMost(a + b, |a| + n, v) == AtMost(a, |a|, v) + AtMost(b, n, v)
    ensures Below(a + b, |a| + n, v) == Below(a, |a|, v) + Below(b, n, v)
    decreases n
  {
    if n == 0 {
      CountsPrefix(a, b, |a|, v);
    } else {
      CountsSplit(a, b, n - 1, v);
      assert (a + b)[|a| + n - 1] == b[n - 1];
    }
  }

  lemma {:induction false} CountsPrefix(a: seq<real>, b: seq<real>, n: nat, v: real)
    requires n <= |a|
    ensures AtMost(a + b, n, v) == AtMost(a, n, v) && Below(a + b, n, v) == Below(a, n, v)
    decreases n
  {
    if n > 0 {
      CountsPrefix(a, b, n - 1, v);
    }
  }

  lemma {:induction false} DriftsCount(healthy: seq<real>, n: nat, p: real)
    requires |healthy| == HEALTHY_WINDOWS && n <= 4 && p >= 0.0
    ensures AtMost(Drifts(healthy), n, p) == StepsWithin(healthy, n, p)
    ensures Below(Drifts(healthy), n, p) == StepsUnder(healthy, n, p)
    decreases n
  {
    if n > 0 {
      DriftsCount(healthy, n - 1, p);
    }
  }

  lemma {:induction false} PoolGrows(cases: seq<Packet>, n: nat, heldOut: nat, root: Label, feature: Feature)
    requires n < |cases| && CompleteCases(cases, root, feature)
    ensures Pool(cases, n + 1, heldOut, root, feature) ==
            if n == heldOut then Pool(cases, n, heldOut, root, feature)
            else Pool(cases, n, heldOut, root, feature) + Drifts(cases[n][(root, feature)].healthy)
  {
  }

  lemma {:induction false} CountsGrow(pool: seq<real>, healthy: seq<real>, p: real)
    requires |healthy| == HEALTHY_WINDOWS && p >= 0.0
    ensures
      var longer := pool + Drifts(healthy);
      && AtMost(longer, |longer|, p) == AtMost(pool, |pool|, p) + StepsWithin(healthy, 4, p)
      && Below(longer, |longer|, p) == Below(pool, |pool|, p) + StepsUnder(healthy, 4, p)
  {
    CountsSplit(pool, Drifts(healthy), 4, p);
    DriftsCount(healthy, 4, p);
  }

  ghost predicate PoolCounted(cases: seq<Packet>, n: nat, heldOut: nat, root: Label, feature: Feature, p: real, pool: seq<real>)
    requires n <= |cases| && CompleteCases(cases, root, feature)
  {
    && AtMost(pool, |pool|, p) == OthersWithin(cases, n, heldOut, root, feature, p)
    && Below(pool, |pool|, p) == OthersUnder(cases, n, heldOut, root, feature, p)
  }

  lemma {:induction false} PoolCountedNext(cases: seq<Packet>, n: nat, heldOut: nat, root: Label, feature: Feature, p: real, pool: seq<real>, next: seq<real>)
    requires n < |cases| && CompleteCases(cases, root, feature) && p >= 0.0 && PoolCounted(cases, n, heldOut, root, feature, p, pool)
    requires next == if n == heldOut then pool else pool + Drifts(cases[n][(root, feature)].healthy)
    ensures PoolCounted(cases, n + 1, heldOut, root, feature, p, next)
  {
    if n != heldOut {
      CountsGrow(pool, cases[n][(root, feature)].healthy, p);
    }
  }

  lemma {:induction false} PoolCounts(cases: seq<Packet>, n: nat, heldOut: nat, root: Label, feature: Feature, p: real)
    requires n <= |cases| && CompleteCases(cases, root, feature) && p >= 0.0
    ensures PoolCounted(cases, n, heldOut, root, feature, p, Pool(cases, n, heldOut, root, feature))
    decreases n
  {
    if n > 0 {
      PoolCounts(cases, n - 1, heldOut, root, feature, p);
      PoolGrows(cases, n - 1, heldOut, root, feature);
      PoolCountedNext(cases, n - 1, heldOut, root, feature, p, Pool(cases, n - 1, heldOut, root, feature), Pool(cases, n, heldOut, root, feature));
    }
  }

  lemma {:induction false} DriftIsRise(healthy: seq<real>, p: real) returns (k: nat)
    requires |healthy| == HEALTHY_WINDOWS && p in Drifts(healthy)
    ensures p >= 0.0 && k < 4 && (p == 0.0 || RisesBy(healthy, k, p))
  {
    k :| k < 4 && Drifts(healthy)[k] == p;
  }

  /** Every entry of a pool is nothing, or a rise of another case. */
  lemma {:induction false} PooledIsRise(cases: seq<Packet>, n: nat, heldOut: nat, root: Label, feature: Feature, p: real)
    requires n <= |cases| && CompleteCases(cases, root, feature) && p in Pool(cases, n, heldOut, root, feature)
    ensures p >= 0.0 && (p == 0.0 || SomeRise(cases, heldOut, root, feature, p))
    decreases n
  {
    PoolGrows(cases, n - 1, heldOut, root, feature);
    if p in Pool(cases, n - 1, heldOut, root, feature) {
      PooledIsRise(cases, n - 1, heldOut, root, feature, p);
    } else {
      var k := DriftIsRise(cases[n - 1][(root, feature)].healthy, p);
    }
  }

  /** The median of five healthy readings: one of them, with three at or below it and three at or above. */
  lemma {:induction false} MedianMeans(healthy: seq<real>)
    requires |healthy| == HEALTHY_WINDOWS
    ensures Median(healthy) in healthy && AtMost(healthy, 5, Median(healthy)) >= 3 && Below(healthy, 5, Median(healthy)) <= 2
  {
    AtRank(healthy, 2);
  }

  // ---------------------------------------------------------------------------------------------
  // The meaning of a threshold.

  /** `p` is the ninety-ninth percentile of the rises of the other cases. */
  ghost predicate IsHealthyPercentile(cases: seq<Packet>, heldOut: nat, root: Label, feature: Feature, p: real)
    requires CompleteCases(cases, root, feature)
  {
    && p >= 0.0 && (p == 0.0 || SomeRise(cases, heldOut, root, feature, p))
    && 100 * OthersWithin(cases, |cases|, heldOut, root, feature, p) >= 99 * (4 * (|cases| - 1))
    && 100 * OthersUnder(cases, |cases|, heldOut, root, feature, p) < 99 * (4 * (|cases| - 1))
  }

  lemma {:induction false} SharesInHundredths(values: seq<real>, v: real)
    requires values != []
    requires AtMost(values, |values|, v) as real >= 0.99 * (|values| as real)
    requires (Below(values, |values|, v) as real) < 0.99 * (|values| as real)
    ensures 100 * AtMost(values, |values|, v) >= 99 * |values| && 100 * Below(values, |values|, v) < 99 * |values|
  {
  }

  lemma {:induction false} PercentileOfPool(cases: seq<Packet>, heldOut: nat, root: Label, feature: Feature)
    requires heldOut < |cases| && |cases| > 1 && CompleteCases(cases, root, feature)
    ensures IsHealthyPercentile(cases, heldOut, root, feature, NearestRank(Pool(cases, |cases|, heldOut, root, feature), PERCENTILE))
  {
    var pool := Pool(cases, |cases|, heldOut, root, feature);
    var p := NearestRank(pool, PERCENTILE);
    NearestRankIsPercentile(pool, PERCENTILE);
    SharesInHundredths(pool, p);
    PooledIsRise(cases, |cases|, heldOut, root, feature, p);
    PoolCounts(cases, |cases|, heldOut, root, feature, p);
  }

  /**
   * Every threshold of the registry is such a percentile plus the registered quantum; a relative floor
   * on a root signal, taken at the middle of the case's own healthy readings, can only raise it.
   */
  lemma {:induction false} ThresholdMeans(r: Registry, cases: seq<Packet>, heldOut: nat, root: Label, feature: Feature) returns (p: real, m: real)
    requires heldOut < |cases| && |cases| > 1 && CompleteCases(cases, root, feature) && (root, feature) in r.quantum
    ensures IsHealthyPercentile(cases, heldOut, root, feature, p)
    ensures
      var healthy := cases[heldOut][(root, feature)].healthy;
      m in healthy && AtMost(healthy, 5, m) >= 3 && Below(healthy, 5, m) <= 2
    ensures
      var cutoff := p + r.quantum[(root, feature)];
      ThresholdsOf(r, cases, heldOut)((root, feature)) ==
        if feature == RootSignal && root in r.floors && r.floors[root](m) > cutoff then r.floors[root](m) else cutoff
  {
    p, m := NearestRank(Pool(cases, |cases|, heldOut, root, feature), PERCENTILE), Median(cases[heldOut][(root, feature)].healthy);
    PercentileOfPool(cases, heldOut, root, feature);
    MedianMeans(cases[heldOut][(root, feature)].healthy);
  }
}
