/**
 * From result rows to cluster means: the grouping step of the three bootstraps, its independence of
 * the order of rows, and the live matrix whose acceptance makes two arms comparable.
 */
module Clusters {
  import opened Prelude
  import opened Intervals

  // ---------------------------------------------------------------------------------------------
  // Keys in order.

  function Least(keys: set<int>): (m: int)
    requires keys != {}
    ensures m in keys && forall k | k in keys :: m <= k
  {
    LeastExists(keys);
    var m :| m in keys && forall k | k in keys :: m <= k;
    m
  }

  lemma {:induction false} LeastOf(keys: set<int>) returns (least: int)
    requires keys != {}
    ensures least in keys && forall k | k in keys :: least <= k
    decreases |keys|
  {
    var x := Member(keys);
    var rest := keys - {x};
    assert keys == rest + {x};
    if rest == {} {
      least := x;
    } else {
      var m := LeastOf(rest);
      least := if m <= x then m else x;
    }
  }

  lemma {:induction false} LeastExists(keys: set<int>)
    requires keys != {}
    ensures exists m :: m in keys && forall k | k in keys :: m <= k
  {
    var least := LeastOf(keys);
  }

  /** `sorted(keys)`. */
  function Ordered(keys: set<int>): seq<int>
    decreases |keys|
  {
    if keys == {} then [] else [Least(keys)] + Ordered(keys - {Least(keys)})
  }

  lemma {:induction false} OrderedKeys(keys: set<int>)
    ensures |Ordered(keys)| == |keys|
    ensures forall k :: k in Ordered(keys) <==> k in keys
    ensures forall i, j | 0 <= i < j < |Ordered(keys)| :: Ordered(keys)[i] < Ordered(keys)[j]
    decreases |keys|
  {
    if keys != {} {
      var least, rest := Least(keys), keys - {Least(keys)};
      OrderedKeys(rest);
      forall j | 0 <= j < |Ordered(rest)|
        ensures least < Ordered(rest)[j]
      {
        assert Ordered(rest)[j] in rest;
      }
    }
  }

  // ---------------------------------------------------------------------------------------------
  // Grouping.

  /** A result row; the metric is absent when it was not computed. */
  datatype MetricRow = MetricRow(caseId: Case, metric: Option<real>)

  function CasesUpTo(rows: seq<MetricRow>, n: nat): set<Case>
    requires n <= |rows|
  {
    if n == 0 then {} else CasesUpTo(rows, n - 1) + {rows[n - 1].caseId}
  }

  function CasesOf(rows: seq<MetricRow>): set<Case> {
    CasesUpTo(rows, |rows|)
  }

  ghost predicate Computed(rows: seq<MetricRow>) {
    forall r | r in rows :: r.metric.Some?
  }

  /** The values of one case among the first `n` rows, in row order. */
  function ValuesOf(rows: seq<MetricRow>, n: nat, key: Case): seq<real>
    requires n <= |rows|
  {
    if n == 0 then [] else
      ValuesOf(rows, n - 1, key)
      + if rows[n - 1].caseId == key && rows[n - 1].metric.Some? then [rows[n - 1].metric.value] else []
  }

  function MeanOrZero(values: seq<real>): real {
    if values == [] then 0.0 else Mean(values)
  }

  function ClusterMean(rows: seq<MetricRow>, key: Case): real {
    MeanOrZero(ValuesOf(rows, |rows|, key))
  }

  function MeansFor(rows: seq<MetricRow>, keys: seq<Case>): seq<real> {
    seq(|keys|, i requires 0 <= i < |keys| => ClusterMean(rows, keys[i]))
  }

  /** v3: clusters in the order of their keys. */
  function ClusterMeans(rows: seq<MetricRow>): seq<real> {
    MeansFor(rows, Ordered(CasesOf(rows)))
  }

  function GroupOf(grouped: map<Case, seq<real>>, k: Case): seq<real> {
    if k in grouped then grouped[k] else []
  }

  /** The dictionary after the first `n` rows: the values of each case seen, and nothing else. */
  ghost predicate GroupedUpTo(rows: seq<MetricRow>, n: nat, grouped: map<Case, seq<real>>)
    requires n <= |rows|
  {
    && grouped.Keys == CasesUpTo(rows, n)
    && (forall k: Case :: GroupOf(grouped, k) == ValuesOf(rows, n, k))
    && (forall k | k in grouped :: grouped[k] != [])
  }

  lemma {:induction false} GroupOne(rows: seq<MetricRow>, n: nat, grouped: map<Case, seq<real>>)
    requires n < |rows| && rows[n].metric.Some? && GroupedUpTo(rows, n, grouped)
    ensures GroupedUpTo(rows, n + 1, grouped[rows[n].caseId := GroupOf(grouped, rows[n].caseId) + [rows[n].metric.value]])
  {
    var key := rows[n].caseId;
    var after := grouped[key := GroupOf(grouped, key) + [rows[n].metric.value]];
    forall k: Case
      ensures GroupOf(after, k) == ValuesOf(rows, n + 1, k)
    {
      assert GroupOf(grouped, k) == ValuesOf(rows, n, k);
    }
  }

  /** The grouping loop: a dictionary from case to its values, or an error for a missing metric. */
  method Group(rows: seq<MetricRow>) returns (r: Result<map<Case, seq<real>>>)
    ensures r.Success? <==> Computed(rows)
    ensures r.Success? ==> GroupedUpTo(rows, |rows|, r.value)
  {
    var grouped: map<Case, seq<real>> := map[];
    for n := 0 to |rows|
      invariant forall i | 0 <= i < n :: rows[i].metric.Some?
      invariant GroupedUpTo(rows, n, grouped)
    {
      var row := rows[n];
      if row.metric.None? {
        assert row in rows;
        return Failure;
      }
      GroupOne(rows, n, grouped);
      grouped := grouped[row.caseId := GroupOf(grouped, row.caseId) + [row.metric.value]];
    }
    return Success(grouped);
  }

  /** The resampling loop. */
  method Resample(means: seq<real>, draws: seq<seq<nat>>) returns (samples: seq<real>)
    requires means != [] && ValidDraws(draws, |means|)
    ensures samples == Samples(means, draws)
  {
    samples := [];
    for b := 0 to |draws|
      invariant samples == Samples(means, draws)[..b]
    {
      var picked: seq<real> := [];
      for j := 0 to |draws[b]|
        invariant picked == Picked(means, draws[b])[..j]
      {
        picked := picked + [means[draws[b][j]]];
      }
      assert picked == Picked(means, draws[b]);
      samples := samples + [Mean(picked)];
    }
  }

  /** The clusters in the order of their keys, each reduced to its mean; no group is empty. */
  method MeansOfGroups(rows: seq<MetricRow>, grouped: map<Case, seq<real>>) returns (means: seq<real>)
    requires GroupedUpTo(rows, |rows|, grouped)
    ensures means == ClusterMeans(rows)
  {
    var keys := Ordered(grouped.Keys);
    forall k: Case
      ensures MeanOrZero(GroupOf(grouped, k)) == ClusterMean(rows, k)
    {
      assert GroupOf(grouped, k) == ValuesOf(rows, |rows|, k);
    }
    means := seq(|keys|, i requires 0 <= i < |keys| => MeanOrZero(GroupOf(grouped, keys[i])));
  }

  lemma {:induction false} SomeClusters(rows: seq<MetricRow>)
    ensures |ClusterMeans(rows)| == |CasesOf(rows)|
    ensures CasesOf(rows) == {} <==> rows == []
  {
    OrderedKeys(CasesOf(rows));
  }

  /** `percentile_cluster_bootstrap_v3`; an empty list of resamples is an index error. */
  method PercentileClusterBootstrapV3(rows: seq<MetricRow>, draws: seq<seq<nat>>) returns (r: Result<Interval>)
    requires ValidDraws(draws, |ClusterMeans(rows)|)
    ensures r.Success? <==> Computed(rows) && ClusterMeans(rows) != [] && draws != []
    ensures r.Success? ==> r.value == Bootstrap(ClusterMeans(rows), draws)
  {
    var grouped := Group(rows);
    if grouped.Failure? {
      return Failure;
    }
    SomeClusters(rows);
    if grouped.value.Keys == {} {
      return Failure;
    }
    var means := MeansOfGroups(rows, grouped.value);
    if draws == [] {
      return Failure;
    }
    var samples := Resample(means, draws);
    var sorted := Sorted(samples, |samples|);
    return Success(Interval(Mean(means), sorted[LowerIndex(|draws|)], sorted[UpperIndex(|draws|)]));
  }

  // ---------------------------------------------------------------------------------------------
  // The order of rows does not matter.

  /** The total of `f` over a bag of rows. */
  ghost function BagTotal(bag: multiset<MetricRow>, f: MetricRow -> real): real
    decreases |bag|
  {
    if bag == multiset{} then 0.0 else
      var r :| r in bag;
      f(r) + BagTotal(bag - multiset{r}, f)
  }

  /** Any row may be taken out first. */
  lemma {:induction false} BagRemove(bag: multiset<MetricRow>, f: MetricRow -> real, r: MetricRow)
    requires r in bag
    ensures BagTotal(bag, f) == f(r) + BagTotal(bag - multiset{r}, f)
    decreases |bag|
  {
    var p :| p in bag && BagTotal(bag, f) == f(p) + BagTotal(bag - multiset{p}, f);
    if p != r {
      BagRemove(bag - multiset{p}, f, r);
      BagRemove(bag - multiset{r}, f, p);
      assert bag - multiset{p} - multiset{r} == bag - multiset{r} - multiset{p};
    }
  }

  ghost function ValueIn(key: Case): MetricRow -> real {
    (r: MetricRow) => if r.caseId == key && r.metric.Some? then r.metric.value else 0.0
  }

  ghost function OneIn(key: Case): MetricRow -> real {
    (r: MetricRow) => if r.caseId == key && r.metric.Some? then 1.0 else 0.0
  }

  lemma {:induction false} SumAppend(s: seq<real>, x: real)
    ensures Sum(s + [x], |s| + 1) == Sum(s, |s|) + x
  {
    SumPrefix(s, [x], |s|);
  }

  lemma {:induction false} SumPrefix(s: seq<real>, t: seq<real>, n: nat)
    requires n <= |s|
    ensures Sum(s + t, n) == Sum(s, n)
    decreases n
  {
    if n > 0 {
      SumPrefix(s, t, n - 1);
    }
  }

  lemma {:induction false} BagGrows(rows: seq<MetricRow>, n: nat, f: MetricRow -> real)
    requires 0 < n <= |rows|
    ensures BagTotal(multiset(rows[..n]), f) == f(rows[n - 1]) + BagTotal(multiset(rows[..n - 1]), f)
  {
    var r := rows[n - 1];
    assert rows[..n] == rows[..n - 1] + [r];
    assert multiset(rows[..n]) - multiset{r} == multiset(rows[..n - 1]);
    BagRemove(multiset(rows[..n]), f, r);
  }

  /** The sum of a case's values depends only on the bag of rows, and so does their number. */
  lemma {:induction false} ValueSumIsBag(rows: seq<MetricRow>, n: nat, key: Case)
    requires n <= |rows|
    ensures Sum(ValuesOf(rows, n, key), |ValuesOf(rows, n, key)|) == BagTotal(multiset(rows[..n]), ValueIn(key))
    decreases n
  {
    if n > 0 {
      ValueSumIsBag(rows, n - 1, key);
      BagGrows(rows, n, ValueIn(key));
      var before := ValuesOf(rows, n - 1, key);
      if rows[n - 1].caseId == key && rows[n - 1].metric.Some? {
        SumAppend(before, rows[n - 1].metric.value);
      } else {
        assert ValuesOf(rows, n, key) == before;
      }
    } else {
      assert rows[..0] == [];
    }
  }

  lemma {:induction false} ValueCountIsBag(rows: seq<MetricRow>, n: nat, key: Case)
    requires n <= |rows|
    ensures |ValuesOf(rows, n, key)| as real == BagTotal(multiset(rows[..n]), OneIn(key))
    decreases n
  {
    if n > 0 {
      ValueCountIsBag(rows, n - 1, key);
      BagGrows(rows, n, OneIn(key));
      var here := if rows[n - 1].caseId == key && rows[n - 1].metric.Some? then 1 else 0;
      assert |ValuesOf(rows, n, key)| == |ValuesOf(rows, n - 1, key)| + here;
      assert OneIn(key)(rows[n - 1]) == here as real;
    } else {
      assert rows[..0] == [];
    }
  }

  lemma {:induction false} ClusterMeanIgnoresOrder(rows: seq<MetricRow>, others: seq<MetricRow>, key: Case)
    requires multiset(rows) == multiset(others)
    ensures ClusterMean(rows, key) == ClusterMean(others, key)
  {
    ValueSumIsBag(rows, |rows|, key);
    ValueSumIsBag(others, |others|, key);
    ValueCountIsBag(rows, |rows|, key);
    ValueCountIsBag(others, |others|, key);
    assert rows[..|rows|] == rows && others[..|others|] == others;
  }

  lemma {:induction false} SameRows(rows: seq<MetricRow>, others: seq<MetricRow>)
    requires multiset(rows) == multiset(others)
    ensures forall r :: r in rows <==> r in others
  {
    forall r
      ensures r in rows <==> r in others
    {
      assert r in rows <==> r in multiset(rows);
      assert r in others <==> r in multiset(others);
    }
  }

  lemma {:induction false} CasesAreOfRows(rows: seq<MetricRow>, n: nat)
    requires n <= |rows|
    ensures CasesUpTo(rows, n) == set r | r in rows[..n] :: r.caseId
    decreases n
  {
    if n > 0 {
      CasesAreOfRows(rows, n - 1);
      assert rows[..n] == rows[..n - 1] + [rows[n - 1]];
    }
  }

  /** v3 is invariant under every permutation of the rows: the same clusters, hence the same interval or error. */
  lemma {:induction false} BootstrapIgnoresRowOrder(rows: seq<MetricRow>, others: seq<MetricRow>)
    requires multiset(rows) == multiset(others)
    ensures Computed(rows) <==> Computed(others)
    ensures CasesOf(rows) == CasesOf(others)
    ensures ClusterMeans(rows) == ClusterMeans(others)
  {
    SameRows(rows, others);
    CasesAreOfRows(rows, |rows|);
    CasesAreOfRows(others, |others|);
    assert rows[..|rows|] == rows && others[..|others|] == others;
    assert CasesOf(rows) == CasesOf(others);
    var keys := Ordered(CasesOf(rows));
    forall i | 0 <= i < |keys|
      ensures ClusterMean(rows, keys[i]) == ClusterMean(others, keys[i])
    {
      ClusterMeanIgnoresOrder(rows, others, keys[i]);
    }
  }

  /** The earlier form keeps clusters in the order in which their cases first appear. */
  function FirstSeen(rows: seq<MetricRow>, n: nat): seq<Case>
    requires n <= |rows|
  {
    if n == 0 then [] else
      var before := FirstSeen(rows, n - 1);
      if rows[n - 1].caseId in before then before else before + [rows[n - 1].caseId]
  }

  function EarlierMeans(rows: seq<MetricRow>): seq<real> {
    MeansFor(rows, FirstSeen(rows, |rows|))
  }

  /** A list of distinct cases that holds exactly the given ones. */
  ghost predicate Lists(order: seq<Case>, cases: set<Case>) {
    Distinct(order) && |order| == |cases| && forall k :: k in order <==> k in cases
  }

  lemma {:induction false} ListsOneMore(order: seq<Case>, cases: set<Case>, key: Case)
    requires Lists(order, cases)
    ensures Lists(if key in order then order else order + [key], cases + {key})
  {
    if key in order {
      assert cases + {key} == cases;
    }
  }

  lemma {:induction false} SeenCases(rows: seq<MetricRow>, n: nat)
    requires n <= |rows|
    ensures Lists(FirstSeen(rows, n), CasesUpTo(rows, n))
    decreases n
  {
    if n > 0 {
      SeenCases(rows, n - 1);
      ListsOneMore(FirstSeen(rows, n - 1), CasesUpTo(rows, n - 1), rows[n - 1].caseId);
    }
  }

  /** A dictionary keeps a new key last. */
  method Remembered(rows: seq<MetricRow>, n: nat, grouped: map<Case, seq<real>>, order: seq<Case>) returns (after: seq<Case>)
    requires n < |rows| && grouped.Keys == CasesUpTo(rows, n) && order == FirstSeen(rows, n)
    ensures after == FirstSeen(rows, n + 1)
  {
    SeenCases(rows, n);
    after := if rows[n].caseId in grouped then order else order + [rows[n].caseId];
  }

  /** The grouping loop of the earlier form: the dictionary with its keys in the order of insertion. */
  method GroupInOrder(rows: seq<MetricRow>) returns (r: Result<(map<Case, seq<real>>, seq<Case>)>)
    ensures r.Success? <==> Computed(rows)
    ensures r.Success? ==> GroupedUpTo(rows, |rows|, r.value.0) && r.value.1 == FirstSeen(rows, |rows|)
  {
    var grouped: map<Case, seq<real>> := map[];
    var order: seq<Case> := [];
    for n := 0 to |rows|
      invariant forall i | 0 <= i < n :: rows[i].metric.Some?
      invariant GroupedUpTo(rows, n, grouped) && order == FirstSeen(rows, n)
    {
      var row := rows[n];
      if row.metric.None? {
        assert row in rows;
        return Failure;
      }
      order := Remembered(rows, n, grouped, order);
      GroupOne(rows, n, grouped);
      grouped := grouped[row.caseId := GroupOf(grouped, row.caseId) + [row.metric.value]];
    }
    return Success((grouped, order));
  }

  /** `percentile_cluster_bootstrap`: clusters in the order in which their cases were first seen. */
  method PercentileClusterBootstrap(rows: seq<MetricRow>, draws: seq<seq<nat>>) returns (r: Result<Interval>)
    requires ValidDraws(draws, |EarlierMeans(rows)|)
    ensures r.Success? <==> Computed(rows) && EarlierMeans(rows) != [] && draws != []
    ensures r.Success? ==> r.value == Bootstrap(EarlierMeans(rows), draws)
  {
    var grouped := GroupInOrder(rows);
    if grouped.Failure? {
      return Failure;
    }
    var (groups, order) := grouped.value;
    if order == [] {
      return Failure;
    }
    forall k: Case
      ensures MeanOrZero(GroupOf(groups, k)) == ClusterMean(rows, k)
    {
      assert GroupOf(groups, k) == ValuesOf(rows, |rows|, k);
    }
    var means := seq(|order|, i requires 0 <= i < |order| => MeanOrZero(GroupOf(groups, order[i])));
    assert means == EarlierMeans(rows);
    if draws == [] {
      return Failure;
    }
    var samples := Resample(means, draws);
    var sorted := Sorted(samples, |samples|);
    return Success(Interval(Mean(means), sorted[LowerIndex(|draws|)], sorted[UpperIndex(|draws|)]));
  }

  /** No draws of `B` resamples tell the two lists of cluster means apart. */
  ghost predicate Indistinguishable(means: seq<real>, others: seq<real>, B: nat) {
    forall draws: seq<seq<nat>> ::
      |draws| == B && B > 0 && means != [] && others != [] && ValidDraws(draws, |means|) && ValidDraws(draws, |others|) ==>
        Bootstrap(means, draws) == Bootstrap(others, draws)
  }

  /** `B` resamples that each pick cluster `i` every time. */
  function SingleOut(i: nat, n: nat, B: nat): seq<seq<nat>> {
    seq(B, _ => seq(n, _ => i))
  }

  /** Singling a cluster out makes both ends of the interval its mean. */
  lemma {:induction false} SingledOutMean(means: seq<real>, i: nat, B: nat)
    requires i < |means| && B > 0
    ensures ValidDraws(SingleOut(i, |means|, B), |means|)
    ensures Bootstrap(means, SingleOut(i, |means|, B)).lower == means[i]
  {
    var draws := SingleOut(i, |means|, B);
    var samples := Samples(means, draws);
    forall b | 0 <= b < B
      ensures samples[b] == means[i]
    {
      ConstantMean(Picked(means, draws[b]), means[i]);
    }
    SortedPermutes(samples, B);
    assert samples[..B] == samples;
    assert Sorted(samples, B)[LowerIndex(B)] in multiset(Sorted(samples, B));
  }

  /** Only equal lists of means are indistinguishable, already at any one number of resamples. */
  lemma {:induction false} IndistinguishableIffEqual(means: seq<real>, others: seq<real>, B: nat)
    requires |means| == |others| && means != [] && B > 0
    ensures Indistinguishable(means, others, B) <==> means == others
  {
    if Indistinguishable(means, others, B) {
      forall i | 0 <= i < |means|
        ensures means[i] == others[i]
      {
        SingledOutMean(means, i, B);
        SingledOutMean(others, i, B);
        assert Bootstrap(means, SingleOut(i, |means|, B)) == Bootstrap(others, SingleOut(i, |means|, B));
      }
    }
  }

  /** Place by place, the cases first seen in the one order and in the other have the same mean. */
  ghost predicate SameMeansInPlace(rows: seq<MetricRow>, others: seq<MetricRow>) {
    var here, there := FirstSeen(rows, |rows|), FirstSeen(others, |others|);
    && |here| == |there|
    && forall i | 0 <= i < |here| :: ClusterMean(rows, here[i]) == ClusterMean(rows, there[i])
  }

  lemma {:induction false} MeansInPlace(rows: seq<MetricRow>, others: seq<MetricRow>, here: seq<Case>, there: seq<Case>)
    requires multiset(rows) == multiset(others) && |here| == |there|
    ensures MeansFor(rows, here) == MeansFor(others, there) <==>
            forall i | 0 <= i < |here| :: ClusterMean(rows, here[i]) == ClusterMean(rows, there[i])
  {
    var x, y := MeansFor(rows, here), MeansFor(others, there);
    forall i | 0 <= i < |there|
      ensures x[i] == y[i] <==> ClusterMean(rows, here[i]) == ClusterMean(rows, there[i])
    {
      ClusterMeanIgnoresOrder(rows, others, there[i]);
    }
  }

  lemma {:induction false} EarlierMeansAreInPlace(rows: seq<MetricRow>, others: seq<MetricRow>)
    requires multiset(rows) == multiset(others)
    ensures |FirstSeen(rows, |rows|)| == |FirstSeen(others, |others|)|
    ensures EarlierMeans(rows) == EarlierMeans(others) <==> SameMeansInPlace(rows, others)
  {
    BootstrapIgnoresRowOrder(rows, others);
    SeenCases(rows, |rows|);
    SeenCases(others, |others|);
    MeansInPlace(rows, others, FirstSeen(rows, |rows|), FirstSeen(others, |others|));
  }

  lemma {:induction false} SomeCaseSeen(rows: seq<MetricRow>)
    requires rows != []
    ensures EarlierMeans(rows) != []
  {
    SeenCases(rows, |rows|);
    assert rows[|rows| - 1].caseId in CasesUpTo(rows, |rows|);
  }

  /**
   * Exactly when the order of rows does not matter to the earlier form: for every number of resamples,
   * a permutation of the rows gives the same interval under all draws if and only if the cases first
   * seen in the one order and in the other have, place by place, the same mean.
   */
  lemma {:induction false} EarlierFormIgnoresOrderIff(rows: seq<MetricRow>, others: seq<MetricRow>, B: nat)
    requires multiset(rows) == multiset(others) && rows != [] && B > 0
    ensures Indistinguishable(EarlierMeans(rows), EarlierMeans(others), B) <==> SameMeansInPlace(rows, others)
  {
    EarlierMeansAreInPlace(rows, others);
    SomeCaseSeen(rows);
    IndistinguishableIffEqual(EarlierMeans(rows), EarlierMeans(others), B);
  }

  /** The condition fails for two cases with different means whose only rows are exchanged. */
  lemma {:induction false} EarlierFormDependsOnOrder(B: nat)
    requires B > 0
    ensures
      var rows := [MetricRow(1, Some(0.0)), MetricRow(2, Some(1.0))];
      var others := [MetricRow(2, Some(1.0)), MetricRow(1, Some(0.0))];
      multiset(rows) == multiset(others) && !Indistinguishable(EarlierMeans(rows), EarlierMeans(others), B)
  {
    var zero, one := MetricRow(1, Some(0.0)), MetricRow(2, Some(1.0));
    var rows, others := [zero, one], [one, zero];
    assert multiset(rows) == multiset(others);
    TwoCases(zero, one);
    assert FirstSeen(others, 1) == [2] && FirstSeen(others, 2) == [2, 1];
    EarlierFormIgnoresOrderIff(rows, others, B);
    assert FirstSeen(rows, |rows|)[0] == 1 && FirstSeen(others, |others|)[0] == 2;
  }

  lemma ValuesStep(rows: seq<MetricRow>, n: nat, key: Case)
    requires n < |rows| && rows[n].metric.Some?
    ensures n == 0 ==> ValuesOf(rows, n, key) == []
    ensures ValuesOf(rows, n + 1, key) == if rows[n].caseId == key then ValuesOf(rows, n, key) + [rows[n].metric.value] else ValuesOf(rows, n, key)
  {
  }

  lemma {:induction false} TwoCases(first: MetricRow, second: MetricRow)
    requires first.caseId != second.caseId && first.metric.Some? && second.metric.Some?
    ensures FirstSeen([first, second], 2) == [first.caseId, second.caseId]
    ensures ClusterMean([first, second], first.caseId) == first.metric.value
    ensures ClusterMean([first, second], second.caseId) == second.metric.value
  {
    var rows := [first, second];
    assert FirstSeen(rows, 1) == [first.caseId];
    ValuesStep(rows, 0, first.caseId);
    ValuesStep(rows, 1, first.caseId);
    ValuesStep(rows, 0, second.caseId);
    ValuesStep(rows, 1, second.caseId);
    assert ValuesOf(rows, |rows|, first.caseId) == [first.metric.value];
    assert ValuesOf(rows, |rows|, second.caseId) == [second.metric.value];
    ConstantMean([first.metric.value], first.metric.value);
    ConstantMean([second.metric.value], second.metric.value);
  }
}
