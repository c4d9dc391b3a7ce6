/**
 * What the bootstraps report, in the rows: the estimate is the mean over cases of the mean over the
 * rows of a case, and the ends stand at the 2.5 and 97.5 per cent places of the resampled means. And
 * what a live matrix holds that the comparison is made from.
 */
module IntervalMeaning {
  import opened Prelude
  import opened Intervals
  import opened Clusters
  import opened Paired
  import Thresholds

  // ---------------------------------------------------------------------------------------------
  // The estimate and the ends.

  /** The total of the clusters one resample draws, over its first `n` draws. */
  function DrawnTotal(means: seq<real>, draw: seq<nat>, n: nat): real
    requires n <= |draw| && forall j | 0 <= j < |draw| :: draw[j] < |means|
  {
    if n == 0 then 0.0 else DrawnTotal(means, draw, n - 1) + means[draw[n - 1]]
  }

  lemma {:induction false} PickedTotal(means: seq<real>, draw: seq<nat>, n: nat)
    requires n <= |draw| && forall j | 0 <= j < |draw| :: draw[j] < |means|
    ensures Sum(Picked(means, draw), n) == DrawnTotal(means, draw, n)
    decreases n
  {
    if n > 0 {
      PickedTotal(means, draw, n - 1);
    }
  }

  /** The samples are the means of what each resample draws. */
  ghost predicate AreResamples(means: seq<real>, draws: seq<seq<nat>>, samples: seq<real>)
    requires ValidDraws(draws, |means|)
  {
    && |samples| == |draws|
    && forall b | 0 <= b < |draws| :: samples[b] * (|means| as real) == DrawnTotal(means, draws[b], |draws[b]|)
  }

  /** A sample with at most `k` samples below it and more than `k` at or below it. */
  ghost predicate StandsAt(samples: seq<real>, k: int, v: real) {
    v in samples && Thresholds.Below(samples, |samples|, v) <= k < Thresholds.AtMost(samples, |samples|, v)
  }

  lemma {:induction false} QuotientTimes(x: real, n: real)
    requires n != 0.0
    ensures x / n * n == x
  {
  }

  lemma {:induction false} SampleIsDrawn(means: seq<real>, draws: seq<seq<nat>>, b: nat)
    requires means != [] && ValidDraws(draws, |means|) && b < |draws|
    ensures Samples(means, draws)[b] * (|means| as real) == DrawnTotal(means, draws[b], |draws[b]|)
  {
    var picked := Picked(means, draws[b]);
    PickedTotal(means, draws[b], |draws[b]|);
    QuotientTimes(Sum(picked, |picked|), |means| as real);
  }

  lemma {:induction false} SamplesAreResamples(means: seq<real>, draws: seq<seq<nat>>)
    requires means != [] && ValidDraws(draws, |means|)
    ensures AreResamples(means, draws, Samples(means, draws))
  {
    forall b | 0 <= b < |draws|
      ensures Samples(means, draws)[b] * (|means| as real) == DrawnTotal(means, draws[b], |draws[b]|)
    {
      SampleIsDrawn(means, draws, b);
    }
  }

  /**
   * Of B samples the lower end stands at place B/40, counted from one, and the upper end right after
   * place 39B/40; where there are too few, they are the first and the last.
   */
  ghost predicate EndsStand(samples: seq<real>, B: nat, lower: real, upper: real) {
    && StandsAt(samples, if B >= 40 then B / 40 - 1 else 0, lower)
    && StandsAt(samples, if B >= 40 then 39 * B / 40 else B - 1, upper)
  }

  lemma {:induction false} SortedEndsStand(samples: seq<real>, sorted: seq<real>)
    requires samples != [] && sorted == Sorted(samples, |samples|)
    ensures EndsStand(samples, |samples|, sorted[LowerIndex(|samples|)], sorted[UpperIndex(|samples|)])
  {
    Thresholds.AtRank(samples, LowerIndex(|samples|));
    Thresholds.AtRank(samples, UpperIndex(|samples|));
  }

  lemma {:induction false} EndsOf(means: seq<real>, draws: seq<seq<nat>>, samples: seq<real>, r: Interval)
    requires means != [] && draws != [] && ValidDraws(draws, |means|)
    requires samples == Samples(means, draws) && r == Bootstrap(means, draws)
    ensures EndsStand(samples, |samples|, r.lower, r.upper)
  {
    SortedEndsStand(samples, Sorted(samples, |samples|));
  }

  /** The estimate is the mean of the cluster means, and the ends stand at their places among the resampled means. */
  lemma {:induction false} IntervalMeans(means: seq<real>, draws: seq<seq<nat>>, r: Interval) returns (samples: seq<real>)
    requires means != [] && draws != [] && ValidDraws(draws, |means|) && r == Bootstrap(means, draws)
    ensures r.estimate * (|means| as real) == Sum(means, |means|)
    ensures AreResamples(means, draws, samples)
    ensures EndsStand(samples, |samples|, r.lower, r.upper)
  {
    samples := Samples(means, draws);
    EndsOf(means, draws, samples, r);
    SamplesAreResamples(means, draws);
    EstimateIsMean(means, draws, r);
  }

  lemma {:induction false} EstimateIsMean(means: seq<real>, draws: seq<seq<nat>>, r: Interval)
    requires means != [] && draws != [] && ValidDraws(draws, |means|) && r == Bootstrap(means, draws)
    ensures r.estimate * (|means| as real) == Sum(means, |means|)
  {
    QuotientTimes(Sum(means, |means|), |means| as real);
  }

  // ---------------------------------------------------------------------------------------------
  // The clusters.

  /** How many of the first `n` rows belong to a case, and their metric in total. */
  function RowsOf(rows: seq<MetricRow>, n: nat, key: Case): nat
    requires n <= |rows|
  {
    if n == 0 then 0 else RowsOf(rows, n - 1, key) + if rows[n - 1].caseId == key then 1 else 0
  }

  function TotalOf(rows: seq<MetricRow>, n: nat, key: Case): real
    requires n <= |rows| && Computed(rows)
  {
    if n == 0 then 0.0 else
      TotalOf(rows, n - 1, key) + if rows[n - 1].caseId == key then rows[n - 1].metric.value else 0.0
  }

  lemma {:induction false} ValuesTotal(rows: seq<MetricRow>, n: nat, key: Case)
    requires n <= |rows| && Computed(rows)
    ensures
      var values := ValuesOf(rows, n, key);
      |values| == RowsOf(rows, n, key) && Sum(values, |values|) == TotalOf(rows, n, key)
    decreases n
  {
    if n > 0 {
      ValuesTotal(rows, n - 1, key);
      assert rows[n - 1] in rows;
      if rows[n - 1].caseId == key {
        SumAppend(ValuesOf(rows, n - 1, key), rows[n - 1].metric.value);
      } else {
        assert ValuesOf(rows, n, key) == ValuesOf(rows, n - 1, key);
      }
    }
  }

  lemma {:induction false} SomeRowOf(rows: seq<MetricRow>, n: nat, key: Case)
    requires n <= |rows|
    ensures key in CasesUpTo(rows, n) <==> RowsOf(rows, n, key) > 0
    decreases n
  {
    if n > 0 {
      SomeRowOf(rows, n - 1, key);
    }
  }

  /** The mean, times the number of the case's rows, is their total. */
  ghost predicate IsMeanOf(rows: seq<MetricRow>, key: Case, mean: real)
    requires Computed(rows)
  {
    mean * (RowsOf(rows, |rows|, key) as real) == TotalOf(rows, |rows|, key)
  }

  ghost predicate HasRow(rows: seq<MetricRow>, key: Case) {
    RowsOf(rows, |rows|, key) > 0
  }

  /** Every case that has a row, in ascending order. */
  ghost predicate ListsCases(rows: seq<MetricRow>, cases: seq<Case>) {
    && (forall i, j | 0 <= i < j < |cases| :: cases[i] < cases[j])
    && forall c :: c in cases <==> HasRow(rows, c)
  }

  lemma {:induction false} OrderedListsCases(rows: seq<MetricRow>, cases: seq<Case>)
    requires cases == Ordered(CasesOf(rows))
    ensures ListsCases(rows, cases)
  {
    OrderedKeys(CasesOf(rows));
    forall c ensures c in cases <==> HasRow(rows, c) {
      SomeRowOf(rows, |rows|, c);
    }
  }

  lemma {:induction false} ClusterIsMean(rows: seq<MetricRow>, key: Case)
    requires Computed(rows)
    ensures IsMeanOf(rows, key, ClusterMean(rows, key))
  {
    ValuesTotal(rows, |rows|, key);
    var values := ValuesOf(rows, |rows|, key);
    if values != [] {
      QuotientTimes(Sum(values, |values|), |values| as real);
    }
  }

  /** Each cluster is one case, in ascending order, and its mean is the mean of the metric over the rows of the case. */
  lemma {:induction false} ClustersMean(rows: seq<MetricRow>) returns (cases: seq<Case>)
    requires Computed(rows)
    ensures |cases| == |ClusterMeans(rows)| && ListsCases(rows, cases)
    ensures forall i | 0 <= i < |cases| :: IsMeanOf(rows, cases[i], ClusterMeans(rows)[i])
  {
    cases := Ordered(CasesOf(rows));
    OrderedListsCases(rows, cases);
    forall i | 0 <= i < |cases| ensures IsMeanOf(rows, cases[i], ClusterMeans(rows)[i]) {
      ClusterIsMean(rows, cases[i]);
    }
  }

  /** The case at `i` in first-seen order has a row before every row of the case at `j`. */
  ghost predicate SeenBefore(rows: seq<MetricRow>, n: nat, a: Case, b: Case)
    requires n <= |rows|
  {
    exists p | 0 <= p < n :: rows[p].caseId == a && forall q | 0 <= q <= p :: rows[q].caseId != b
  }

  lemma {:induction false} FirstSeenIsFirst(rows: seq<MetricRow>, n: nat)
    requires n <= |rows|
    ensures
      var order := FirstSeen(rows, n);
      && (forall p | 0 <= p < n :: rows[p].caseId in order)
      && (forall c | c in order :: exists p | 0 <= p < n :: rows[p].caseId == c)
      && forall i, j | 0 <= i < j < |order| :: SeenBefore(rows, n, order[i], order[j])
    decreases n
  {
    if n > 0 {
      FirstSeenIsFirst(rows, n - 1);
      var before, order := FirstSeen(rows, n - 1), FirstSeen(rows, n);
      forall i, j | 0 <= i < j < |order| ensures SeenBefore(rows, n, order[i], order[j]) {
        if j < |before| {
          assert SeenBefore(rows, n - 1, before[i], before[j]);
        } else {
          assert before[i] in before;
          var p :| 0 <= p < n - 1 && rows[p].caseId == before[i];
          assert forall q | 0 <= q <= p :: rows[q].caseId in before;
        }
      }
    }
  }

  // ---------------------------------------------------------------------------------------------
  // The paired clusters.

  /** How many of the first `n` trials of an arm are on a case, and what they score in total. */
  function TrialsOf(rows: seq<TrialRow>, n: nat, c: Case): nat
    requires n <= |rows|
  {
    if n == 0 then 0 else TrialsOf(rows, n - 1, c) + if rows[n - 1].caseId == c then 1 else 0
  }

  function ScoreOf(rows: seq<TrialRow>, n: nat, c: Case): real
    requires n <= |rows|
  {
    if n == 0 then 0.0 else ScoreOf(rows, n - 1, c) + if rows[n - 1].caseId == c then rows[n - 1].coreE2e else 0.0
  }

  ghost function SetTotal(keys: set<int>, f: int -> real): real
    decreases |keys|
  {
    if keys == {} then 0.0 else f(Least(keys)) + SetTotal(keys - {Least(keys)}, f)
  }

  lemma {:induction false} SetTotalAdds(keys: set<int>, x: int, f: int -> real)
    requires x !in keys
    ensures SetTotal(keys + {x}, f) == SetTotal(keys, f) + f(x)
    decreases |keys|
  {
    var all := keys + {x};
    if Least(all) == x {
      assert all - {x} == keys;
    } else {
      var least := Least(all);
      assert least == Least(keys);
      SetTotalAdds(keys - {least}, x, f);
      assert all - {least} == keys - {least} + {x};
    }
  }

  lemma {:induction false} SetTotalAlike(keys: set<int>, f: int -> real, g: int -> real)
    requires forall k | k in keys :: f(k) == g(k)
    ensures SetTotal(keys, f) == SetTotal(keys, g)
    decreases |keys|
  {
    if keys != {} {
      SetTotalAlike(keys - {Least(keys)}, f, g);
    }
  }

  ghost function Along(keys: seq<int>, f: int -> real): seq<real> {
    seq(|keys|, i requires 0 <= i < |keys| => f(keys[i]))
  }

  lemma {:induction false} SumCons(x: real, s: seq<real>, n: nat)
    requires n <= |s|
    ensures Sum([x] + s, n + 1) == x + Sum(s, n)
    decreases n
  {
    if n == 0 {
      assert Sum([x] + s, 0) == 0.0;
    } else {
      SumCons(x, s, n - 1);
    }
  }

  lemma {:induction false} SumAlong(keys: set<int>, f: int -> real)
    ensures Sum(Along(Ordered(keys), f), |Ordered(keys)|) == SetTotal(keys, f)
    decreases |keys|
  {
    if keys != {} {
      var rest := keys - {Least(keys)};
      SumAlong(rest, f);
      SumCons(f(Least(keys)), Along(Ordered(rest), f), |Ordered(rest)|);
      assert Along(Ordered(keys), f) == [f(Least(keys))] + Along(Ordered(rest), f);
    }
  }

  /** The score an index holds for one repetition of a case. */
  ghost function Entry(m: map<Key, real>, c: Case): int -> real {
    repetition => if (c, repetition) in m then m[(c, repetition)] else 0.0
  }

  ghost predicate IndexTotals(rows: seq<TrialRow>, n: nat, c: Case, m: map<Key, real>)
    requires n <= |rows|
  {
    && |RepetitionsOf(m.Keys, c)| == TrialsOf(rows, n, c)
    && SetTotal(RepetitionsOf(m.Keys, c), Entry(m, c)) == ScoreOf(rows, n, c)
  }

  lemma {:induction false} IndexTotalsNext(rows: seq<TrialRow>, n: nat, c: Case, before: map<Key, real>)
    requires n < |rows| && IndexTotals(rows, n, c, before) && KeyOf(rows[n]) !in before
    ensures IndexTotals(rows, n + 1, c, before[KeyOf(rows[n]) := rows[n].coreE2e])
  {
    var row, after := rows[n], before[KeyOf(rows[n]) := rows[n].coreE2e];
    var reps := RepetitionsOf(before.Keys, c);
    SetTotalAlike(reps, Entry(before, c), Entry(after, c));
    if row.caseId == c {
      assert RepetitionsOf(after.Keys, c) == reps + {row.repetition};
      SetTotalAdds(reps, row.repetition, Entry(after, c));
    } else {
      assert RepetitionsOf(after.Keys, c) == reps;
    }
  }

  /** An index holds each trial of a case under its own repetition. */
  lemma {:induction false} IndexHoldsTotals(rows: seq<TrialRow>, n: nat, c: Case)
    requires n <= |rows| && IndexUpTo(rows, n).Success?
    ensures IndexTotals(rows, n, c, IndexUpTo(rows, n).value)
    decreases n
  {
    if n > 0 {
      IndexHoldsTotals(rows, n - 1, c);
      IndexTotalsNext(rows, n - 1, c, IndexUpTo(rows, n - 1).value);
    } else {
      assert RepetitionsOf({}, c) == {};
    }
  }

  lemma {:induction false} SumOfDifferences(d: seq<real>, a: seq<real>, b: seq<real>, n: nat)
    requires n <= |d| == |a| == |b| && forall i | 0 <= i < |d| :: d[i] == a[i] - b[i]
    ensures Sum(d, n) == Sum(a, n) - Sum(b, n)
    decreases n
  {
    if n > 0 {
      SumOfDifferences(d, a, b, n - 1);
    }
  }

  lemma {:induction false} DifferencesTotal(l: map<Key, real>, r: map<Key, real>, c: Case)
    requires l.Keys == r.Keys
    ensures
      var d, reps := Differences(l, r, c), RepetitionsOf(l.Keys, c);
      |d| == |reps| && Sum(d, |d|) == SetTotal(reps, Entry(l, c)) - SetTotal(reps, Entry(r, c))
  {
    var d, reps := Differences(l, r, c), RepetitionsOf(l.Keys, c);
    OrderedKeys(reps);
    SumAlong(reps, Entry(l, c));
    SumAlong(reps, Entry(r, c));
    SumOfDifferences(d, Along(Ordered(reps), Entry(l, c)), Along(Ordered(reps), Entry(r, c)), |d|);
  }

  /** The mean difference of a case, times its trials, is what the left arm scores on it more than the right one. */
  ghost predicate IsDifference(left: seq<TrialRow>, right: seq<TrialRow>, c: Case, mean: real) {
    && TrialsOf(left, |left|, c) == TrialsOf(right, |right|, c) > 0
    && mean * (TrialsOf(left, |left|, c) as real) == ScoreOf(left, |left|, c) - ScoreOf(right, |right|, c)
  }

  lemma {:induction false} SomeTrialOf(rows: seq<TrialRow>, m: map<Key, real>, c: Case)
    requires Index(rows) == Success(m) && c in CasesIn(m.Keys)
    ensures |RepetitionsOf(m.Keys, c)| > 0
  {
    var key :| key in m.Keys && key.0 == c;
    assert key.1 in RepetitionsOf(m.Keys, c);
  }

  lemma {:induction false} MeanTimes(d: seq<real>, n: nat, total: real)
    requires n == |d| > 0 && Sum(d, |d|) == total
    ensures MeanOrZero(d) * (n as real) == total
  {
    QuotientTimes(total, n as real);
  }

  lemma {:induction false} IndexedTotals(rows: seq<TrialRow>, m: map<Key, real>, c: Case)
    requires Index(rows) == Success(m)
    ensures IndexTotals(rows, |rows|, c, m)
  {
    IndexHoldsTotals(rows, |rows|, c);
  }

  lemma {:induction false} DifferenceTotals(left: seq<TrialRow>, right: seq<TrialRow>, l: map<Key, real>, r: map<Key, real>, c: Case, d: seq<real>)
    requires IndexTotals(left, |left|, c, l) && IndexTotals(right, |right|, c, r) && l.Keys == r.Keys
    requires d == Differences(l, r, c) && |RepetitionsOf(l.Keys, c)| > 0
    ensures |d| == TrialsOf(left, |left|, c) == TrialsOf(right, |right|, c) > 0
    ensures Sum(d, |d|) == ScoreOf(left, |left|, c) - ScoreOf(right, |right|, c)
  {
    DifferencesTotal(l, r, c);
  }

  lemma {:induction false} DifferenceIsMean(left: seq<TrialRow>, right: seq<TrialRow>, l: map<Key, real>, r: map<Key, real>, c: Case, d: seq<real>)
    requires Index(left) == Success(l) && Index(right) == Success(r) && l.Keys == r.Keys && c in CasesIn(l.Keys)
    requires d == Differences(l, r, c)
    ensures IsDifference(left, right, c, MeanOrZero(d))
  {
    IndexedTotals(left, l, c);
    IndexedTotals(right, r, c);
    SomeTrialOf(left, l, c);
    DifferenceTotals(left, right, l, r, c, d);
    MeanTimes(d, TrialsOf(left, |left|, c), ScoreOf(left, |left|, c) - ScoreOf(right, |right|, c));
  }

  /**
   * The clusters of a paired bootstrap are the cases of the two arms, in ascending order, and each one's
   * mean is the left arm's mean score on the case minus the right arm's.
   */
  lemma {:induction false} PairedClustersMean(left: seq<TrialRow>, right: seq<TrialRow>, l: map<Key, real>, r: map<Key, real>) returns (cases: seq<Case>)
    requires Index(left) == Success(l) && Index(right) == Success(r) && l.Keys == r.Keys
    ensures |cases| == |DifferenceMeans(l, r)|
    ensures forall i, j | 0 <= i < j < |cases| :: cases[i] < cases[j]
    ensures forall i | 0 <= i < |cases| :: IsDifference(left, right, cases[i], DifferenceMeans(l, r)[i])
  {
    cases := Ordered(CasesIn(l.Keys));
    OrderedKeys(CasesIn(l.Keys));
    forall i | 0 <= i < |cases| ensures IsDifference(left, right, cases[i], DifferenceMeans(l, r)[i]) {
      assert cases[i] in cases;
      DifferenceIsMean(left, right, l, r, cases[i], Differences(l, r, cases[i]));
    }
  }

  /** No trial of an arm repeats the case and the repetition of another. */
  ghost predicate NoKeyTwice(rows: seq<TrialRow>, n: nat)
    requires n <= |rows|
  {
    forall i, j | 0 <= i < j < n :: (rows[i].caseId, rows[i].repetition) != (rows[j].caseId, rows[j].repetition)
  }

  ghost predicate HasTrial(rows: seq<TrialRow>, n: nat, c: Case, repetition: int)
    requires n <= |rows|
  {
    exists i | 0 <= i < n :: rows[i].caseId == c && rows[i].repetition == repetition
  }

  /** An arm is indexed exactly if no key stands twice, and then by the keys of its trials. */
  ghost predicate IndexedRight(rows: seq<TrialRow>, n: nat, index: Result<map<Key, real>>)
    requires n <= |rows|
  {
    && (index.Success? <==> NoKeyTwice(rows, n))
    && (index.Success? ==> forall k: Key :: k in index.value <==> HasTrial(rows, n, k.0, k.1))
  }

  lemma {:induction false} HasTrialNext(rows: seq<TrialRow>, n: nat, c: Case, repetition: int)
    requires n < |rows|
    ensures HasTrial(rows, n + 1, c, repetition) <==>
            HasTrial(rows, n, c, repetition) || (rows[n].caseId == c && rows[n].repetition == repetition)
  {
    if i :| 0 <= i < n && rows[i].caseId == c && rows[i].repetition == repetition {
      assert i < n + 1;
    }
  }

  lemma {:induction false} IndexedNext(rows: seq<TrialRow>, n: nat)
    requires n < |rows| && IndexedRight(rows, n, IndexUpTo(rows, n))
    ensures IndexedRight(rows, n + 1, IndexUpTo(rows, n + 1))
  {
    var row := rows[n];
    forall c: Case, repetition: int
      ensures HasTrial(rows, n + 1, c, repetition) <==> HasTrial(rows, n, c, repetition) || (c, repetition) == KeyOf(row)
    {
      HasTrialNext(rows, n, c, repetition);
    }
    assert NoKeyTwice(rows, n + 1) <==> NoKeyTwice(rows, n) && !HasTrial(rows, n, row.caseId, row.repetition);
  }

  lemma {:induction false} IndexIff(rows: seq<TrialRow>, n: nat)
    requires n <= |rows|
    ensures IndexedRight(rows, n, IndexUpTo(rows, n))
    decreases n
  {
    if n > 0 {
      IndexIff(rows, n - 1);
      IndexedNext(rows, n - 1);
    }
  }

  ghost predicate SameTrials(left: seq<TrialRow>, right: seq<TrialRow>) {
    forall c: Case, repetition: int :: HasTrial(left, |left|, c, repetition) <==> HasTrial(right, |right|, c, repetition)
  }

  ghost function CasesTried(rows: seq<TrialRow>): set<Case> {
    set row | row in rows :: row.caseId
  }

  lemma {:induction false} IndexedCases(rows: seq<TrialRow>, m: map<Key, real>)
    requires Index(rows) == Success(m)
    ensures CasesIn(m.Keys) == CasesTried(rows)
  {
    IndexIff(rows, |rows|);
    forall c ensures c in CasesIn(m.Keys) <==> c in CasesTried(rows) {
      if c in CasesIn(m.Keys) {
        var key :| key in m.Keys && key.0 == c;
        var i :| 0 <= i < |rows| && rows[i].caseId == key.0 && rows[i].repetition == key.1;
        assert rows[i] in rows;
      }
      if c in CasesTried(rows) {
        var row :| row in rows && row.caseId == c;
        var i :| 0 <= i < |rows| && rows[i] == row;
        assert HasTrial(rows, |rows|, c, row.repetition);
        assert (c, row.repetition) in m.Keys;
      }
    }
  }

  lemma {:induction false} SameKeysIff(left: seq<TrialRow>, right: seq<TrialRow>, l: map<Key, real>, r: map<Key, real>)
    requires Index(left) == Success(l) && Index(right) == Success(r)
    ensures l.Keys == r.Keys <==> SameTrials(left, right)
  {
    IndexIff(left, |left|);
    IndexIff(right, |right|);
    if l.Keys == r.Keys {
      forall c: Case, repetition: int ensures HasTrial(left, |left|, c, repetition) <==> HasTrial(right, |right|, c, repetition) {
        assert (c, repetition) in l.Keys <==> (c, repetition) in r.Keys;
      }
    }
    if SameTrials(left, right) {
      forall k: Key ensures k in l.Keys <==> k in r.Keys {
        assert HasTrial(left, |left|, k.0, k.1) <==> HasTrial(right, |right|, k.0, k.1);
      }
    }
  }

  /**
   * Two arms are compared exactly if neither repeats a trial, both have the same trials, and they are
   * on the required number of cases.
   */
  lemma {:induction false} ComparesIff(left: seq<TrialRow>, right: seq<TrialRow>, clusters: nat, draws: seq<seq<nat>>)
    requires ValidDraws(draws, clusters) && draws != []
    ensures PairedBootstrap(left, right, clusters, draws).Success? <==>
            && NoKeyTwice(left, |left|) && NoKeyTwice(right, |right|) && SameTrials(left, right)
            && |CasesTried(left)| == clusters > 0
  {
    IndexIff(left, |left|);
    IndexIff(right, |right|);
    if Index(left).Success? && Index(right).Success? {
      var l, r := Index(left).value, Index(right).value;
      SameKeysIff(left, right, l, r);
      IndexedCases(left, l);
      OrderedKeys(CasesIn(l.Keys));
    }
  }

  // ---------------------------------------------------------------------------------------------
  // The live matrix.

  ghost predicate IsTrial(row: TrialRow, arm: string, c: Case, repetition: int) {
    row.baseline == arm && row.caseId == c && row.repetition == repetition
  }

  /** One row, and no other, is the trial of this arm, case and repetition. */
  ghost predicate TriedOnce(rows: seq<TrialRow>, arm: string, c: Case, repetition: int) {
    exists i | 0 <= i < |rows| :: IsTrial(rows[i], arm, c, repetition)
      && forall j | 0 <= j < |rows| && IsTrial(rows[j], arm, c, repetition) :: j == i
  }

  ghost predicate Expected(arm: string, c: Case, repetition: int, cases: nat, repetitions: nat) {
    arm in {"naive_react", "naive_react_single", "no_rag"} && 1 <= c <= cases && 1 <= repetition <= repetitions
  }

  /** Every arm tries every case from 1 on in every repetition once, and nothing else; each trial is resolved without a fallback. */
  ghost predicate EachTriedOnce(rows: seq<TrialRow>, cases: nat, repetitions: nat) {
    && (forall arm, c, repetition :: Expected(arm, c, repetition, cases, repetitions) ==> TriedOnce(rows, arm, c, repetition))
    && forall row | row in rows :: Expected(row.baseline, row.caseId, row.repetition, cases, repetitions) && row.resolved && row.fallbackCount == 0
  }

  lemma {:induction false} KeyExpected(rows: seq<TrialRow>, cases: nat, repetitions: nat, arm: string, c: Case, repetition: int)
    ensures ((arm, c), repetition) in ExpectedKeys(cases, repetitions) <==> Expected(arm, c, repetition, cases, repetitions)
  {
    assert (arm, c) in Grid(ARMS, cases) <==> arm in ARMS && 1 <= c <= cases;
  }

  lemma {:induction false} KeyListed(rows: seq<TrialRow>, arm: string, c: Case, repetition: int)
    ensures ((arm, c), repetition) in Elements(MatrixKeys(rows)) <==> exists i | 0 <= i < |rows| :: IsTrial(rows[i], arm, c, repetition)
  {
    var keys := MatrixKeys(rows);
    if ((arm, c), repetition) in keys {
      var i :| 0 <= i < |keys| && keys[i] == ((arm, c), repetition);
      assert IsTrial(rows[i], arm, c, repetition);
    }
    if i :| 0 <= i < |rows| && IsTrial(rows[i], arm, c, repetition) {
      assert keys[i] == ((arm, c), repetition);
    }
  }

  lemma {:induction false} AcceptedTriesOnce(rows: seq<TrialRow>, cases: nat, repetitions: nat)
    requires LiveMatrixAccepted(rows, cases, repetitions)
    ensures EachTriedOnce(rows, cases, repetitions)
  {
    AcceptedKeysAreDistinct(rows, cases, repetitions);
    var keys := MatrixKeys(rows);
    forall arm, c, repetition | Expected(arm, c, repetition, cases, repetitions) ensures TriedOnce(rows, arm, c, repetition) {
      KeyExpected(rows, cases, repetitions, arm, c, repetition);
      KeyListed(rows, arm, c, repetition);
      var i :| 0 <= i < |rows| && IsTrial(rows[i], arm, c, repetition);
      forall j | 0 <= j < |rows| && IsTrial(rows[j], arm, c, repetition) ensures j == i {
        assert keys[i] == keys[j];
      }
    }
    forall row | row in rows ensures Expected(row.baseline, row.caseId, row.repetition, cases, repetitions) {
      var i :| 0 <= i < |rows| && rows[i] == row;
      assert keys[i] in Elements(keys);
      KeyExpected(rows, cases, repetitions, row.baseline, row.caseId, row.repetition);
    }
  }

  lemma {:induction false} TriedOnceIsDistinct(rows: seq<TrialRow>, cases: nat, repetitions: nat)
    requires EachTriedOnce(rows, cases, repetitions)
    ensures Elements(MatrixKeys(rows)) == ExpectedKeys(cases, repetitions) && Distinct(MatrixKeys(rows))
    ensures |rows| == 3 * cases * repetitions
  {
    var keys := MatrixKeys(rows);
    forall arm, c, repetition
      ensures ((arm, c), repetition) in Elements(keys) <==> ((arm, c), repetition) in ExpectedKeys(cases, repetitions)
    {
      KeyExpected(rows, cases, repetitions, arm, c, repetition);
      KeyListed(rows, arm, c, repetition);
      assert Expected(arm, c, repetition, cases, repetitions) ==> TriedOnce(rows, arm, c, repetition);
    }
    forall i, j | 0 <= i < j < |keys| ensures keys[i] != keys[j] {
      var row := rows[i];
      assert row in rows && IsTrial(rows[i], row.baseline, row.caseId, row.repetition);
      assert TriedOnce(rows, row.baseline, row.caseId, row.repetition);
      assert keys[i] == keys[j] ==> IsTrial(rows[j], row.baseline, row.caseId, row.repetition);
    }
    CountDistinct(keys);
    ExpectedSize(cases, repetitions);
  }

  lemma {:induction false} ArmHolds(rows: seq<TrialRow>, n: nat, arm: string)
    requires n <= |rows| && Distinct(MatrixKeys(rows))
    ensures Distinct(MatrixKeys(ArmRows(rows, n, arm)))
    ensures forall row :: row in ArmRows(rows, n, arm) <==> row in rows[..n] && row.baseline == arm
    decreases n
  {
    if n > 0 {
      ArmHolds(rows, n - 1, arm);
      var before, last := ArmRows(rows, n - 1, arm), rows[n - 1];
      if last.baseline == arm {
        forall i | 0 <= i < |before| ensures MatrixKeyOf(before[i]) != MatrixKeyOf(last) {
          assert before[i] in before;
          var j :| 0 <= j < n - 1 && rows[j] == before[i];
          assert MatrixKeys(rows)[j] != MatrixKeys(rows)[n - 1];
        }
        assert MatrixKeys(before + [last]) == MatrixKeys(before) + [MatrixKeyOf(last)];
        assert ArmRows(rows, n, arm) == before + [last];
      } else {
        assert ArmRows(rows, n, arm) == before;
      }
      assert rows[..n] == rows[..n - 1] + [last];
    }
  }

  lemma {:induction false} ArmKeysCounted(rows: seq<TrialRow>, cases: nat, repetitions: nat, arm: string)
    requires Elements(MatrixKeys(rows)) == ExpectedKeys(cases, repetitions) && Distinct(MatrixKeys(rows)) && arm in ARMS
    ensures |Arm(rows, arm)| == cases * repetitions
  {
    ArmHolds(rows, |rows|, arm);
    var own := Arm(rows, arm);
    var keys, expected := MatrixKeys(own), Grid(Grid({arm}, cases), repetitions);
    assert rows[..|rows|] == rows;
    forall a, c, repetition ensures ((a, c), repetition) in Elements(keys) <==> ((a, c), repetition) in expected {
      KeyListed(own, a, c, repetition);
      KeyListed(rows, a, c, repetition);
      KeyExpected(rows, cases, repetitions, a, c, repetition);
      assert (a, c) in Grid({arm}, cases) <==> a == arm && 1 <= c <= cases;
      if i :| 0 <= i < |own| && IsTrial(own[i], a, c, repetition) {
        assert own[i] in own;
        var j :| 0 <= j < |rows| && rows[j] == own[i];
        assert IsTrial(rows[j], a, c, repetition);
      }
      if a == arm {
        if i :| 0 <= i < |rows| && IsTrial(rows[i], a, c, repetition) {
          assert rows[i] in own;
          var j :| 0 <= j < |own| && own[j] == rows[i];
          assert IsTrial(own[j], a, c, repetition);
        }
      }
    }
    assert Elements(keys) == expected by {
      forall k: MatrixKey ensures k in Elements(keys) <==> k in expected {
        assert k == ((k.0.0, k.0.1), k.1);
      }
    }
    CountDistinct(keys);
    GridSize({arm}, cases);
    GridSize(Grid({arm}, cases), repetitions);
  }

  /** A live matrix is accepted exactly if it has three or five repetitions and tries everything once: the counts follow. */
  lemma {:induction false} AcceptedIff(rows: seq<TrialRow>, cases: nat, repetitions: nat)
    ensures LiveMatrixAccepted(rows, cases, repetitions) <==>
            (repetitions == 3 || repetitions == 5) && EachTriedOnce(rows, cases, repetitions)
  {
    if LiveMatrixAccepted(rows, cases, repetitions) {
      AcceptedTriesOnce(rows, cases, repetitions);
    }
    if EachTriedOnce(rows, cases, repetitions) {
      TriedOnceIsDistinct(rows, cases, repetitions);
      forall arm | arm in ARMS ensures |Arm(rows, arm)| == cases * repetitions {
        ArmKeysCounted(rows, cases, repetitions, arm);
      }
    }
  }
}
