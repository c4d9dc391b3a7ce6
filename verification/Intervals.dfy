/**
 * The percentile bootstrap over case clusters of `g03_readiness.py`, with the paired form and the
 * earlier form of `g02_baselines.py`. Floats are reals, the random generator is an arbitrary
 * stream of indices, and a case identifier stands for its place in the order of identifiers.
 */
module Intervals {
  import opened Prelude

  type Case = int

  datatype Row = Row(caseId: Case, value: real)

  datatype Interval = Interval(estimate: real, lower: real, upper: real)

  // ---------------------------------------------------------------------------------------------
  // Sums and means.

  function Sum(s: seq<real>, n: nat): real
    requires n <= |s|
  {
    if n == 0 then 0.0 else Sum(s, n - 1) + s[n - 1]
  }

  function Mean(s: seq<real>): real
    requires s != []
  {
    Sum(s, |s|) / (|s| as real)
  }

  ghost predicate Between(s: seq<real>, lo: real, hi: real) {
    forall i | 0 <= i < |s| :: lo <= s[i] <= hi
  }

  lemma {:induction false} SumBetween(s: seq<real>, n: nat, lo: real, hi: real)
    requires n <= |s| && Between(s, lo, hi)
    ensures (n as real) * lo <= Sum(s, n) <= (n as real) * hi
    decreases n
  {
    if n > 0 {
      SumBetween(s, n - 1, lo, hi);
      assert (n as real) * lo == ((n - 1) as real) * lo + lo;
      assert (n as real) * hi == ((n - 1) as real) * hi + hi;
    }
  }

  lemma {:induction false} DivideMonotone(a: real, b: real, n: real)
    requires n > 0.0 && a <= b
    ensures a / n <= b / n
  {
    assert b / n - a / n == (b - a) / n;
  }

  lemma {:induction false} QuotientBetween(sum: real, n: real, lo: real, hi: real)
    requires n > 0.0 && n * lo <= sum <= n * hi
    ensures lo <= sum / n <= hi
  {
    DivideMonotone(n * lo, sum, n);
    DivideMonotone(sum, n * hi, n);
    assert n * lo / n == lo && n * hi / n == hi;
  }

  lemma {:induction false} MeanBetween(s: seq<real>, lo: real, hi: real)
    requires s != [] && Between(s, lo, hi)
    ensures lo <= Mean(s) <= hi
  {
    SumBetween(s, |s|, lo, hi);
    QuotientBetween(Sum(s, |s|), |s| as real, lo, hi);
  }

  ghost predicate Negated(s: seq<real>, t: seq<real>) {
    |s| == |t| && forall i | 0 <= i < |s| :: t[i] == -s[i]
  }

  lemma {:induction false} SumNegated(s: seq<real>, t: seq<real>, n: nat)
    requires Negated(s, t) && n <= |s|
    ensures Sum(t, n) == -Sum(s, n)
    decreases n
  {
    if n > 0 {
      SumNegated(s, t, n - 1);
    }
  }

  lemma {:induction false} MeanNegated(s: seq<real>, t: seq<real>)
    requires Negated(s, t) && s != []
    ensures Mean(t) == -Mean(s)
  {
    SumNegated(s, t, |s|);
  }

  // ---------------------------------------------------------------------------------------------
  // Sorting.

  function Insert(x: real, s: seq<real>): seq<real> {
    if s == [] then [x] else if x < s[0] then [x] + s else [s[0]] + Insert(x, s[1..])
  }

  /** `samples.sort()`, of the first `n` samples. */
  function Sorted(s: seq<real>, n: nat): (r: seq<real>)
    requires n <= |s|
    ensures |r| == n
  {
    if n == 0 then [] else
      InsertLength(s[n - 1], Sorted(s, n - 1));
      Insert(s[n - 1], Sorted(s, n - 1))
  }

  lemma {:induction false} InsertLength(x: real, s: seq<real>)
    ensures |Insert(x, s)| == |s| + 1
    decreases |s|
  {
    if s != [] && s[0] <= x {
      InsertLength(x, s[1..]);
    }
  }

  ghost predicate Ascending(s: seq<real>) {
    forall i, j | 0 <= i <= j < |s| :: s[i] <= s[j]
  }

  lemma {:induction false} InsertBetween(x: real, s: seq<real>, lo: real, hi: real)
    requires Between(s, lo, hi) && lo <= x <= hi
    ensures Between(Insert(x, s), lo, hi)
    decreases |s|
  {
    if s != [] && s[0] <= x {
      InsertBetween(x, s[1..], lo, hi);
    }
  }

  lemma {:induction false} InsertFrom(x: real, s: seq<real>, lo: real)
    requires lo <= x && forall i | 0 <= i < |s| :: lo <= s[i]
    ensures forall i | 0 <= i < |Insert(x, s)| :: lo <= Insert(x, s)[i]
    decreases |s|
  {
    if s != [] && s[0] <= x {
      InsertFrom(x, s[1..], lo);
    }
  }

  lemma {:induction false} InsertAscends(x: real, s: seq<real>)
    requires Ascending(s)
    ensures Ascending(Insert(x, s))
    decreases |s|
  {
    if s != [] && s[0] <= x {
      InsertAscends(x, s[1..]);
      InsertFrom(x, s[1..], s[0]);
    }
  }

  lemma {:induction false} InsertPermutes(x: real, s: seq<real>)
    ensures multiset(Insert(x, s)) == multiset(s) + multiset{x}
    decreases |s|
  {
    if s != [] {
      assert s == [s[0]] + s[1..];
      if s[0] <= x {
        InsertPermutes(x, s[1..]);
      }
    }
  }

  lemma {:induction false} SortedAscends(s: seq<real>, n: nat)
    requires n <= |s|
    ensures Ascending(Sorted(s, n))
    decreases n
  {
    if n > 0 {
      SortedAscends(s, n - 1);
      InsertAscends(s[n - 1], Sorted(s, n - 1));
    }
  }

  lemma {:induction false} OneMore(s: seq<real>, n: nat)
    requires 0 < n <= |s|
    ensures multiset(s[..n]) == multiset(s[..n - 1]) + multiset{s[n - 1]}
  {
    assert s[..n] == s[..n - 1] + [s[n - 1]];
  }

  lemma {:induction false} SortedPermutes(s: seq<real>, n: nat)
    requires n <= |s|
    ensures multiset(Sorted(s, n)) == multiset(s[..n])
    decreases n
  {
    if n > 0 {
      SortedPermutes(s, n - 1);
      InsertPermutes(s[n - 1], Sorted(s, n - 1));
      OneMore(s, n);
    } else {
      assert s[..0] == [];
    }
  }

  /** The negated values in the opposite order. */
  function Mirrored(s: seq<real>): (r: seq<real>)
    ensures |r| == |s|
  {
    if s == [] then [] else Mirrored(s[1..]) + [-s[0]]
  }

  lemma {:induction false} MirroredAt(s: seq<real>, i: nat)
    requires i < |s|
    ensures Mirrored(s)[i] == -s[|s| - 1 - i]
    decreases |s|
  {
    if i < |s| - 1 {
      MirroredAt(s[1..], i);
    }
  }

  lemma {:induction false} InsertLast(y: real, u: seq<real>, z: real)
    requires y <= z
    ensures Insert(y, u + [z]) == Insert(y, u) + [z]
    decreases |u|
  {
    if u == [] {
      assert [] + [z] == [z];
    } else {
      assert (u + [z])[1..] == u[1..] + [z];
      if u[0] <= y {
        InsertLast(y, u[1..], z);
      } else {
        assert [y] + (u + [z]) == [y] + u + [z];
      }
    }
  }

  lemma {:induction false} InsertAtEnd(y: real, u: seq<real>)
    requires forall i | 0 <= i < |u| :: u[i] <= y
    ensures Insert(y, u) == u + [y]
    decreases |u|
  {
    if u != [] {
      InsertAtEnd(y, u[1..]);
      assert u == [u[0]] + u[1..];
    }
  }

  lemma {:induction false} InsertBelow(x: real, s: seq<real>)
    requires forall i | 0 <= i < |s| :: x <= s[i]
    ensures Insert(-x, Mirrored(s)) == Mirrored(s) + [-x]
  {
    forall i | 0 <= i < |s|
      ensures Mirrored(s)[i] <= -x
    {
      MirroredAt(s, i);
    }
    InsertAtEnd(-x, Mirrored(s));
  }

  lemma {:induction false} InsertMirrored(x: real, s: seq<real>)
    requires Ascending(s)
    ensures Insert(-x, Mirrored(s)) == Mirrored(Insert(x, s))
    decreases |s|
  {
    if s == [] || x < s[0] {
      InsertBelow(x, s);
      MirroredCons(x, s);
      assert Insert(x, s) == [x] + s;
    } else {
      var rest := s[1..];
      InsertMirrored(x, rest);
      InsertLast(-x, Mirrored(rest), -s[0]);
      MirroredCons(s[0], Insert(x, rest));
      assert Insert(x, s) == [s[0]] + Insert(x, rest);
      assert Mirrored(s) == Mirrored(rest) + [-s[0]];
    }
  }

  lemma {:induction false} MirroredCons(x: real, s: seq<real>)
    ensures Mirrored([x] + s) == Mirrored(s) + [-x]
  {
    assert ([x] + s)[1..] == s;
  }

  /** Negating the samples mirrors the sorted list. */
  lemma {:induction false} SortedMirrors(s: seq<real>, t: seq<real>, n: nat)
    requires Negated(s, t) && n <= |s|
    ensures Sorted(t, n) == Mirrored(Sorted(s, n))
    decreases n
  {
    if n > 0 {
      SortedMirrors(s, t, n - 1);
      SortedAscends(s, n - 1);
      InsertMirrored(s[n - 1], Sorted(s, n - 1));
      assert Sorted(t, n) == Insert(t[n - 1], Sorted(t, n - 1));
    }
  }

  // ---------------------------------------------------------------------------------------------
  // The bootstrap on cluster means.

  /** `max(0, floor(0.025 * B) - 1)` and `min(B - 1, floor(0.975 * B))`. */
  function LowerIndex(B: nat): nat {
    if B / 40 == 0 then 0 else B / 40 - 1
  }

  function UpperIndex(B: nat): nat
    requires B > 0
  {
    if 39 * B / 40 < B - 1 then 39 * B / 40 else B - 1
  }

  /** One draw per resample: as many cluster indices as there are clusters. */
  ghost predicate ValidDraws(draws: seq<seq<nat>>, n: nat) {
    forall b | 0 <= b < |draws| :: |draws[b]| == n && forall j | 0 <= j < n :: draws[b][j] < n
  }

  function Picked(means: seq<real>, draw: seq<nat>): seq<real>
    requires forall j | 0 <= j < |draw| :: draw[j] < |means|
  {
    seq(|draw|, j requires 0 <= j < |draw| => means[draw[j]])
  }

  function Samples(means: seq<real>, draws: seq<seq<nat>>): seq<real>
    requires means != [] && ValidDraws(draws, |means|)
  {
    seq(|draws|, b requires 0 <= b < |draws| => Mean(Picked(means, draws[b])))
  }

  function Bootstrap(means: seq<real>, draws: seq<seq<nat>>): Interval
    requires means != [] && draws != [] && ValidDraws(draws, |means|)
  {
    var samples := Sorted(Samples(means, draws), |draws|);
    Interval(Mean(means), samples[LowerIndex(|draws|)], samples[UpperIndex(|draws|)])
  }

  lemma {:induction false} SamplesBetween(means: seq<real>, draws: seq<seq<nat>>, lo: real, hi: real)
    requires means != [] && ValidDraws(draws, |means|) && Between(means, lo, hi)
    ensures Between(Samples(means, draws), lo, hi)
  {
    forall b | 0 <= b < |draws|
      ensures lo <= Samples(means, draws)[b] <= hi
    {
      MeanBetween(Picked(means, draws[b]), lo, hi);
    }
  }

  lemma {:induction false} SortedBetween(s: seq<real>, n: nat, lo: real, hi: real)
    requires n <= |s| && Between(s, lo, hi)
    ensures Between(Sorted(s, n), lo, hi)
    decreases n
  {
    if n > 0 {
      SortedBetween(s, n - 1, lo, hi);
      InsertBetween(s[n - 1], Sorted(s, n - 1), lo, hi);
    }
  }

  /** The interval is ordered and lies, like the estimate, between the least and the greatest cluster mean. */
  lemma {:induction false} IntervalIsBounded(means: seq<real>, draws: seq<seq<nat>>, lo: real, hi: real)
    requires means != [] && draws != [] && ValidDraws(draws, |means|) && Between(means, lo, hi)
    ensures
      var r := Bootstrap(means, draws);
      lo <= r.lower <= r.upper <= hi && lo <= r.estimate <= hi
  {
    MeanBetween(means, lo, hi);
    SamplesBetween(means, draws, lo, hi);
    SortedBetween(Samples(means, draws), |draws|, lo, hi);
    SortedAscends(Samples(means, draws), |draws|);
  }

  /** The two indices lie symmetrically exactly when 40 divides B or B is below 40. */
  lemma IndicesMirrorIff(B: nat)
    requires B > 0
    ensures LowerIndex(B) + UpperIndex(B) == B - 1 <==> B % 40 == 0 || B < 40
  {
  }

  lemma {:induction false} SamplesNegate(means: seq<real>, others: seq<real>, draws: seq<seq<nat>>)
    requires means != [] && ValidDraws(draws, |means|) && Negated(means, others)
    ensures Negated(Samples(means, draws), Samples(others, draws))
  {
    forall b | 0 <= b < |draws|
      ensures Samples(others, draws)[b] == -Samples(means, draws)[b]
    {
      MeanNegated(Picked(means, draws[b]), Picked(others, draws[b]));
    }
  }

  ghost predicate MirrorOf(r: Interval, m: Interval) {
    m == Interval(-r.estimate, -r.upper, -r.lower)
  }

  /** Any two places of a list at equal distance from its ends are exchanged, negated, in its mirror image. */
  lemma {:induction false} MirrorEnds(s: seq<real>, low: nat, high: nat)
    requires low < |s| && high < |s| && low + high == |s| - 1
    ensures Mirrored(s)[low] == -s[high] && Mirrored(s)[high] == -s[low]
  {
    MirroredAt(s, low);
    MirroredAt(s, high);
  }

  /** Negated cluster means, under the same draws, turn [lower, upper] into exactly [-upper, -lower]. */
  lemma {:induction false} NegatedMeansMirrorTheInterval(means: seq<real>, others: seq<real>, draws: seq<seq<nat>>)
    requires means != [] && draws != [] && ValidDraws(draws, |means|) && Negated(means, others)
    requires LowerIndex(|draws|) + UpperIndex(|draws|) == |draws| - 1
    ensures MirrorOf(Bootstrap(means, draws), Bootstrap(others, draws))
  {
    MeanNegated(means, others);
    SamplesNegate(means, others, draws);
    SortedMirrors(Samples(means, draws), Samples(others, draws), |draws|);
    MirrorEnds(Sorted(Samples(means, draws), |draws|), LowerIndex(|draws|), UpperIndex(|draws|));
  }

  lemma {:induction false} AscendingIsSorted(s: seq<real>, n: nat)
    requires Ascending(s) && n <= |s|
    ensures Sorted(s, n) == s[..n]
    decreases n
  {
    if n > 0 {
      AscendingIsSorted(s, n - 1);
      InsertAtEnd(s[n - 1], s[..n - 1]);
      assert s[..n] == s[..n - 1] + [s[n - 1]];
    }
  }

  lemma {:induction false} ConstantSum(s: seq<real>, n: nat, x: real)
    requires n <= |s| && forall i | 0 <= i < n :: s[i] == x
    ensures Sum(s, n) == x * (n as real)
    decreases n
  {
    if n > 0 {
      ConstantSum(s, n - 1, x);
      assert x * (n as real) == x * ((n - 1) as real) + x;
    }
  }

  lemma {:induction false} ConstantMean(s: seq<real>, x: real)
    requires s != [] && forall i | 0 <= i < |s| :: s[i] == x
    ensures Mean(s) == x
  {
    ConstantSum(s, |s|, x);
    var n := |s| as real;
    assert x * n / n == x;
  }

  /** `k` resamples of nothing but the first cluster, then resamples of nothing but the second. */
  function StepDraws(k: nat, B: nat, n: nat): seq<seq<nat>> {
    seq(B, b => seq(n, _ => if b < k then 0 else 1))
  }

  ghost predicate DrawsOnly(draw: seq<nat>, i: nat) {
    forall j | 0 <= j < |draw| :: draw[j] == i
  }

  /** A resample of one cluster only has its mean. */
  lemma {:induction false} PickedAlike(means: seq<real>, draw: seq<nat>, i: nat)
    requires i < |means| && draw != [] && DrawsOnly(draw, i)
    ensures Mean(Picked(means, draw)) == means[i]
  {
    ConstantMean(Picked(means, draw), means[i]);
  }

  lemma {:induction false} StepDraw(k: nat, B: nat, n: nat, b: nat)
    requires b < B && n >= 2
    ensures |StepDraws(k, B, n)[b]| == n && DrawsOnly(StepDraws(k, B, n)[b], if b < k then 0 else 1)
  {
    assert StepDraws(k, B, n)[b] == seq(n, _ => if b < k then 0 else 1);
  }

  lemma {:induction false} SamplesOfSteps(means: seq<real>, k: nat, draws: seq<seq<nat>>)
    requires |means| >= 2
    requires forall b: nat | b < |draws| :: |draws[b]| == |means| && DrawsOnly(draws[b], if b < k then 0 else 1)
    ensures ValidDraws(draws, |means|)
    ensures forall b | 0 <= b < |draws| :: Samples(means, draws)[b] == if b < k then means[0] else means[1]
  {
    forall b: nat | b < |draws|
      ensures ValidDraws([draws[b]], |means|) && Mean(Picked(means, draws[b])) == if b < k then means[0] else means[1]
    {
      PickedAlike(means, draws[b], if b < k then 0 else 1);
    }
  }

  lemma {:induction false} StepSamples(means: seq<real>, k: nat, B: nat)
    requires |means| >= 2
    ensures ValidDraws(StepDraws(k, B, |means|), |means|)
    ensures forall b | 0 <= b < B :: Samples(means, StepDraws(k, B, |means|))[b] == if b < k then means[0] else means[1]
  {
    forall b: nat | b < B
      ensures |StepDraws(k, B, |means|)[b]| == |means| && DrawsOnly(StepDraws(k, B, |means|)[b], if b < k then 0 else 1)
    {
      StepDraw(k, B, |means|, b);
    }
    SamplesOfSteps(means, k, StepDraws(k, B, |means|));
  }

  lemma {:induction false} StepIsSorted(samples: seq<real>, k: nat, small: real, large: real)
    requires small < large && forall b | 0 <= b < |samples| :: samples[b] == if b < k then small else large
    ensures Sorted(samples, |samples|) == samples
  {
    AscendingIsSorted(samples, |samples|);
    assert samples[..|samples|] == samples;
  }

  /** The sorted step of `low + 1` small samples, and its mirror image one place off. */
  lemma {:induction false} SortedStepEnds(samples: seq<real>, others: seq<real>, small: real, large: real, low: nat, high: nat)
    requires small < large && Negated(samples, others) && low < high && low + high + 2 == |samples|
    requires forall b | 0 <= b < |samples| :: samples[b] == if b < low + 1 then small else large
    ensures |Sorted(samples, |samples|)| == |samples| && Sorted(samples, |samples|)[low] == small
    ensures |Sorted(others, |samples|)| == |samples| && Sorted(others, |samples|)[high] == -large
  {
    StepIsSorted(samples, low + 1, small, large);
    SortedMirrors(samples, others, |samples|);
    MirroredAt(samples, high);
  }

  lemma {:induction false} StepEnds(means: seq<real>, others: seq<real>, B: nat, low: nat, high: nat)
    requires |means| >= 2 && means[0] < means[1] && Negated(means, others)
    requires low < high && low + high + 2 == B
    ensures ValidDraws(StepDraws(low + 1, B, |means|), |means|)
    ensures Sorted(Samples(means, StepDraws(low + 1, B, |means|)), B)[low] == means[0]
    ensures Sorted(Samples(others, StepDraws(low + 1, B, |means|)), B)[high] == -means[1]
  {
    var draws := StepDraws(low + 1, B, |means|);
    StepSamples(means, low + 1, B);
    SamplesNegate(means, others, draws);
    SortedStepEnds(Samples(means, draws), Samples(others, draws), means[0], means[1], low, high);
  }

  /** For every other B any two clusters with different means suffice to break the symmetry. */
  lemma {:induction false} MirrorFails(means: seq<real>, others: seq<real>, B: nat)
    requires |means| >= 2 && means[0] < means[1] && Negated(means, others) && B >= 40 && B % 40 != 0
    ensures ValidDraws(StepDraws(LowerIndex(B) + 1, B, |means|), |means|)
    ensures !MirrorOf(Bootstrap(means, StepDraws(LowerIndex(B) + 1, B, |means|)),
                      Bootstrap(others, StepDraws(LowerIndex(B) + 1, B, |means|)))
  {
    OneApart(B);
    StepEnds(means, others, B, LowerIndex(B), UpperIndex(B));
  }

  lemma OneApart(B: nat)
    requires B >= 40 && B % 40 != 0
    ensures LowerIndex(B) + UpperIndex(B) == B - 2 && LowerIndex(B) < UpperIndex(B)
  {
  }

  /** A single cluster is drawn every time: the interval is its mean. */
  lemma {:induction false} SingleCluster(means: seq<real>, draws: seq<seq<nat>>)
    requires |means| == 1 && draws != [] && ValidDraws(draws, 1)
    ensures Bootstrap(means, draws) == Interval(means[0], means[0], means[0])
  {
    var samples := Samples(means, draws);
    ConstantMean(means, means[0]);
    forall b | 0 <= b < |draws|
      ensures samples[b] == means[0]
    {
      ConstantMean(Picked(means, draws[b]), means[0]);
    }
    SamplesBetween(means, draws, means[0], means[0]);
    SortedBetween(samples, |draws|, means[0], means[0]);
  }

  /** With one cluster, with 40 dividing B, or with B below 40, negated means mirror every interval. */
  lemma {:induction false} MirrorHolds(means: seq<real>, others: seq<real>, draws: seq<seq<nat>>)
    requires means != [] && draws != [] && Negated(means, others) && ValidDraws(draws, |means|)
    requires |means| == 1 || |draws| % 40 == 0 || |draws| < 40
    ensures MirrorOf(Bootstrap(means, draws), Bootstrap(others, draws))
  {
    if |means| == 1 {
      SingleCluster(means, draws);
      SingleCluster(others, draws);
    } else {
      IndicesMirrorIff(|draws|);
      NegatedMeansMirrorTheInterval(means, others, draws);
    }
  }
}
