/**
 * The paired bootstrap of `g03_readiness.py` between two arms, and the live matrix: a matrix that
 * passes validation lists every key once, so its arms always align.
 */
module Paired {
  import opened Prelude
  import opened Intervals
  import opened Clusters

  type Key = (Case, int)

  datatype TrialRow = TrialRow(baseline: string, caseId: Case, repetition: int, coreE2e: real, resolved: bool, fallbackCount: nat)

  function KeyOf(row: TrialRow): Key {
    (row.caseId, row.repetition)
  }

  /** `indexed`: the rows of one arm by case and repetition; a repeated key is an error. */
  function IndexUpTo(rows: seq<TrialRow>, n: nat): Result<map<Key, real>>
    requires n <= |rows|
  {
    if n == 0 then Success(map[])
    else match IndexUpTo(rows, n - 1)
      case Failure => Failure
      case Success(m) => if KeyOf(rows[n - 1]) in m then Failure else Success(m[KeyOf(rows[n - 1]) := rows[n - 1].coreE2e])
  }

  function Index(rows: seq<TrialRow>): Result<map<Key, real>> {
    IndexUpTo(rows, |rows|)
  }

  lemma {:induction false} FailureStays(rows: seq<TrialRow>, n: nat)
    requires n <= |rows| && IndexUpTo(rows, n).Failure?
    ensures Index(rows).Failure?
    decreases |rows| - n
  {
    if n < |rows| {
      FailureStays(rows, n + 1);
    }
  }

  method Indexed(rows: seq<TrialRow>) returns (r: Result<map<Key, real>>)
    ensures r == Index(rows)
  {
    var result: map<Key, real> := map[];
    for n := 0 to |rows|
      invariant IndexUpTo(rows, n) == Success(result)
    {
      var key := KeyOf(rows[n]);
      if key in result {
        FailureStays(rows, n + 1);
        return Failure;
      }
      result := result[key := rows[n].coreE2e];
    }
    return Success(result);
  }

  function CasesIn(keys: set<Key>): set<Case> {
    set k | k in keys :: k.0
  }

  function RepetitionsOf(keys: set<Key>, c: Case): set<int> {
    set k | k in keys && k.0 == c :: k.1
  }

  /** The differences of one case, in the order of its repetitions. */
  function Differences(left: map<Key, real>, right: map<Key, real>, c: Case): seq<real>
    requires left.Keys == right.Keys
  {
    var reps := Ordered(RepetitionsOf(left.Keys, c));
    seq(|reps|, i requires 0 <= i < |reps| =>
      if (c, reps[i]) in left then left[(c, reps[i])] - right[(c, reps[i])] else 0.0)
  }

  function DifferenceMeans(left: map<Key, real>, right: map<Key, real>): seq<real>
    requires left.Keys == right.Keys
  {
    var cases := Ordered(CasesIn(left.Keys));
    seq(|cases|, i requires 0 <= i < |cases| => MeanOrZero(Differences(left, right, cases[i])))
  }

  /** `paired_cluster_bootstrap_v3` for a required number of case clusters. */
  function PairedBootstrap(left: seq<TrialRow>, right: seq<TrialRow>, clusters: nat, draws: seq<seq<nat>>): Result<Interval>
    requires ValidDraws(draws, clusters)
  {
    match (Index(left), Index(right))
    case (Success(l), Success(r)) =>
      if l.Keys != r.Keys then Failure
      else
        var means := DifferenceMeans(l, r);
        if |means| != clusters || means == [] || draws == [] then Failure
        else Success(Bootstrap(means, draws))
    case _ => Failure
  }

  method PairedClusterBootstrapV3(left: seq<TrialRow>, right: seq<TrialRow>, clusters: nat, draws: seq<seq<nat>>)
    returns (r: Result<Interval>)
    requires ValidDraws(draws, clusters)
    ensures r == PairedBootstrap(left, right, clusters, draws)
  {
    var l := Indexed(left);
    var r' := Indexed(right);
    if l.Failure? || r'.Failure? || l.value.Keys != r'.value.Keys {
      return Failure;
    }
    var means := DifferenceMeans(l.value, r'.value);
    if |means| != clusters || means == [] || draws == [] {
      return Failure;
    }
    var samples := Resample(means, draws);
    var sorted := Sorted(samples, |samples|);
    return Success(Interval(Mean(means), sorted[LowerIndex(|draws|)], sorted[UpperIndex(|draws|)]));
  }

  lemma {:induction false} DifferencesNegate(l: map<Key, real>, r: map<Key, real>)
    requires l.Keys == r.Keys
    ensures Negated(DifferenceMeans(l, r), DifferenceMeans(r, l))
  {
    var cases := Ordered(CasesIn(l.Keys));
    forall i | 0 <= i < |cases|
      ensures MeanOrZero(Differences(r, l, cases[i])) == -MeanOrZero(Differences(l, r, cases[i]))
    {
      var d, e := Differences(l, r, cases[i]), Differences(r, l, cases[i]);
      assert Negated(d, e);
      if d != [] {
        MeanNegated(d, e);
      }
    }
  }

  /**
   * Swapping the arms under the same draws: the swap fails exactly when the original does, and
   * otherwise turns the interval into its mirror image where the number of resamples allows it.
   */
  lemma {:induction false} SwappedArmsMirror(left: seq<TrialRow>, right: seq<TrialRow>, clusters: nat, draws: seq<seq<nat>>)
    requires ValidDraws(draws, clusters)
    ensures PairedBootstrap(right, left, clusters, draws).Success? <==> PairedBootstrap(left, right, clusters, draws).Success?
    ensures PairedBootstrap(left, right, clusters, draws).Success? && (clusters == 1 || |draws| % 40 == 0 || |draws| < 40) ==>
              MirrorOf(PairedBootstrap(left, right, clusters, draws).value, PairedBootstrap(right, left, clusters, draws).value)
  {
    if Index(left).Success? && Index(right).Success? && Index(left).value.Keys == Index(right).value.Keys {
      var l, r := Index(left).value, Index(right).value;
      DifferencesNegate(l, r);
      if draws != [] && |DifferenceMeans(l, r)| == clusters && clusters > 0 && (clusters == 1 || |draws| % 40 == 0 || |draws| < 40) {
        MirrorHolds(DifferenceMeans(l, r), DifferenceMeans(r, l), draws);
      }
    }
  }

  // ---------------------------------------------------------------------------------------------
  // Exactly when the arms of every comparison mirror.

  /** With this many clusters and resamples, swapping the arms of any two row lists mirrors the interval. */
  ghost predicate ArmsMirrorAt(clusters: nat, B: nat) {
    forall left: seq<TrialRow>, right: seq<TrialRow>, draws: seq<seq<nat>> ::
      |draws| == B && ValidDraws(draws, clusters)
      && PairedBootstrap(left, right, clusters, draws).Success? && PairedBootstrap(right, left, clusters, draws).Success? ==>
        MirrorOf(PairedBootstrap(left, right, clusters, draws).value, PairedBootstrap(right, left, clusters, draws).value)
  }

  /** One trial of each of `n` cases: the arm fails them all, or passes all but the first. */
  function ArmOf(baseline: string, n: nat, passes: bool): seq<TrialRow> {
    if n == 0 then [] else
      ArmOf(baseline, n - 1, passes) + [TrialRow(baseline, n, 1, if passes && n >= 2 then 1.0 else 0.0, true, 0)]
  }

  /** The index of such an arm: exactly the first repetitions of its cases. */
  ghost predicate IndexesArm(n: nat, passes: bool, m: map<Key, real>) {
    && (forall k: Key :: k in m <==> 1 <= k.0 <= n && k.1 == 1)
    && (forall k: Key | k in m :: m[k] == if passes && k.0 >= 2 then 1.0 else 0.0)
  }

  lemma {:induction false} ArmPrefix(baseline: string, rows: seq<TrialRow>, more: seq<TrialRow>, n: nat)
    requires n <= |rows|
    ensures IndexUpTo(rows + more, n) == IndexUpTo(rows, n)
    decreases n
  {
    if n > 0 {
      ArmPrefix(baseline, rows, more, n - 1);
    }
  }

  lemma {:induction false} ArmIsIndexed(baseline: string, n: nat, passes: bool)
    ensures |ArmOf(baseline, n, passes)| == n
    ensures Index(ArmOf(baseline, n, passes)).Success? && IndexesArm(n, passes, Index(ArmOf(baseline, n, passes)).value)
    decreases n
  {
    if n > 0 {
      ArmIsIndexed(baseline, n - 1, passes);
      var before := ArmOf(baseline, n - 1, passes);
      var row := TrialRow(baseline, n, 1, if passes && n >= 2 then 1.0 else 0.0, true, 0);
      assert ArmOf(baseline, n, passes) == before + [row];
      ArmPrefix(baseline, before, [row], n - 1);
    }
  }

  /** The cases of such an arm, in order, begin with 1. */
  lemma {:induction false} OrderedCases(n: nat, m: map<Key, real>, passes: bool)
    requires IndexesArm(n, passes, m) && n >= 2
    ensures
      var cases := Ordered(CasesIn(m.Keys));
      |cases| == n && cases[0] == 1 && cases[1] >= 2 && forall c | c in cases :: 1 <= c <= n
  {
    assert CasesIn(m.Keys) == Numbers(n) by {
      forall c: int | 1 <= c <= n
        ensures c in CasesIn(m.Keys)
      {
        assert (c, 1) in m.Keys;
      }
    }
    OrderedKeys(CasesIn(m.Keys));
    var cases := Ordered(CasesIn(m.Keys));
    assert 1 in cases && cases[0] in cases && cases[1] in cases;
    var j :| 0 <= j < |cases| && cases[j] == 1;
  }

  /** The difference of one case is the difference of its only trial. */
  lemma {:induction false} OnlyTrial(n: nat, l: map<Key, real>, r: map<Key, real>, c: int)
    requires IndexesArm(n, true, l) && IndexesArm(n, false, r) && l.Keys == r.Keys && 1 <= c <= n
    ensures MeanOrZero(Differences(l, r, c)) == if c >= 2 then 1.0 else 0.0
  {
    assert (c, 1) in l.Keys;
    assert RepetitionsOf(l.Keys, c) == {1};
    OrderedKeys({1});
    assert Ordered({1})[0] in Ordered({1});
    var d := Differences(l, r, c);
    assert |d| == 1 && d[0] == l[(c, 1)] - r[(c, 1)];
    ConstantMean(d, d[0]);
  }

  /** Two arms of `n` cases whose first two difference means are 0 and 1. */
  lemma {:induction false} TwoArms(left: string, right: string, n: nat) returns (l: map<Key, real>, r: map<Key, real>)
    requires n >= 2
    ensures Index(ArmOf(left, n, true)) == Success(l) && Index(ArmOf(right, n, false)) == Success(r) && l.Keys == r.Keys
    ensures |DifferenceMeans(l, r)| == n && DifferenceMeans(l, r)[0] == 0.0 && DifferenceMeans(l, r)[1] == 1.0
  {
    ArmIsIndexed(left, n, true);
    ArmIsIndexed(right, n, false);
    l, r := Index(ArmOf(left, n, true)).value, Index(ArmOf(right, n, false)).value;
    assert l.Keys == r.Keys;
    OrderedCases(n, l, true);
    var cases := Ordered(CasesIn(l.Keys));
    assert cases[1] in cases;
    OnlyTrial(n, l, r, cases[0]);
    OnlyTrial(n, l, r, cases[1]);
  }

  lemma AlignedValue(left: seq<TrialRow>, right: seq<TrialRow>, l: map<Key, real>, r: map<Key, real>, clusters: nat, draws: seq<seq<nat>>)
    requires Index(left) == Success(l) && Index(right) == Success(r) && l.Keys == r.Keys
    requires |DifferenceMeans(l, r)| == clusters > 0 && draws != [] && ValidDraws(draws, clusters)
    ensures PairedBootstrap(left, right, clusters, draws) == Success(Bootstrap(DifferenceMeans(l, r), draws))
  {
  }

  /** For every other number of resamples and any two clusters or more, two arms do not mirror. */
  lemma {:induction false} ArmsFailToMirror(left: string, right: string, n: nat, B: nat)
    requires n >= 2 && B >= 40 && B % 40 != 0
    ensures
      var draws := StepDraws(LowerIndex(B) + 1, B, n);
      var a, b := ArmOf(left, n, true), ArmOf(right, n, false);
      && ValidDraws(draws, n)
      && PairedBootstrap(a, b, n, draws).Success? && PairedBootstrap(b, a, n, draws).Success?
      && !MirrorOf(PairedBootstrap(a, b, n, draws).value, PairedBootstrap(b, a, n, draws).value)
  {
    var l, r := TwoArms(left, right, n);
    DifferencesNegate(l, r);
    var draws := StepDraws(LowerIndex(B) + 1, B, n);
    MirrorFails(DifferenceMeans(l, r), DifferenceMeans(r, l), B);
    AlignedValue(ArmOf(left, n, true), ArmOf(right, n, false), l, r, n, draws);
    AlignedValue(ArmOf(right, n, false), ArmOf(left, n, true), r, l, n, draws);
  }

  /**
   * Swapping the arms mirrors every interval exactly when there is at most one cluster, or 40 divides
   * the number of resamples, or there are fewer than 40 of them.
   */
  lemma {:induction false} ArmsMirrorIff(clusters: nat, B: nat)
    ensures ArmsMirrorAt(clusters, B) <==> clusters <= 1 || B % 40 == 0 || B < 40
  {
    if clusters <= 1 || B % 40 == 0 || B < 40 {
      forall left: seq<TrialRow>, right: seq<TrialRow>, draws: seq<seq<nat>> |
        |draws| == B && ValidDraws(draws, clusters)
        && PairedBootstrap(left, right, clusters, draws).Success? && PairedBootstrap(right, left, clusters, draws).Success?
        ensures MirrorOf(PairedBootstrap(left, right, clusters, draws).value, PairedBootstrap(right, left, clusters, draws).value)
      {
        SwappedArmsMirror(left, right, clusters, draws);
      }
    } else {
      ArmsFailToMirror("left", "right", clusters, B);
      assert |StepDraws(LowerIndex(B) + 1, B, clusters)| == B;
    }
  }

  // ---------------------------------------------------------------------------------------------
  // The live matrix.

  const ARMS := {"naive_react", "naive_react_single", "no_rag"}

  type MatrixKey = ((string, Case), int)

  function MatrixKeyOf(row: TrialRow): MatrixKey {
    ((row.baseline, row.caseId), row.repetition)
  }

  function MatrixKeys(rows: seq<TrialRow>): seq<MatrixKey> {
    seq(|rows|, i requires 0 <= i < |rows| => MatrixKeyOf(rows[i]))
  }

  function Numbers(n: nat): (s: set<int>)
    ensures forall i :: i in s <==> 1 <= i <= n
    ensures |s| == n
  {
    if n == 0 then {} else Numbers(n - 1) + {n}
  }

  function Grid<T>(s: set<T>, n: nat): set<(T, int)> {
    set x, i | x in s && 1 <= i <= n :: (x, i)
  }

  /** Every arm, every case from 1 to `cases`, every repetition. */
  function ExpectedKeys(cases: nat, repetitions: nat): set<MatrixKey> {
    Grid(Grid(ARMS, cases), repetitions)
  }

  function ArmRows(rows: seq<TrialRow>, n: nat, baseline: string): seq<TrialRow>
    requires n <= |rows|
  {
    if n == 0 then [] else ArmRows(rows, n - 1, baseline) + if rows[n - 1].baseline == baseline then [rows[n - 1]] else []
  }

  function Arm(rows: seq<TrialRow>, baseline: string): seq<TrialRow> {
    ArmRows(rows, |rows|, baseline)
  }

  /** `validate_reference_live_v3`, for any number of cases. */
  predicate LiveMatrixAccepted(rows: seq<TrialRow>, cases: nat, repetitions: nat) {
    && (repetitions == 3 || repetitions == 5)
    && |rows| == 3 * cases * repetitions
    && Elements(MatrixKeys(rows)) == ExpectedKeys(cases, repetitions)
    && (forall row | row in rows :: row.resolved)
    && (forall row | row in rows :: row.fallbackCount == 0)
    && (forall arm | arm in ARMS :: |Arm(rows, arm)| == cases * repetitions)
  }

  lemma {:induction false} SliceSize<T>(s: set<T>, i: int)
    ensures |set x | x in s :: (x, i)| == |s|
    decreases |s|
  {
    if s != {} {
      var x := Member(s);
      SliceSize(s - {x}, i);
      assert (set y | y in s :: (y, i)) == (set y | y in s - {x} :: (y, i)) + {(x, i)};
    }
  }

  lemma {:induction false} GridSize<T>(s: set<T>, n: nat)
    ensures |Grid(s, n)| == |s| * n
    decreases n
  {
    if n == 0 {
      assert Grid(s, 0) == {};
    } else {
      GridSize(s, n - 1);
      SliceSize(s, n);
      var slice := set x | x in s :: (x, n);
      assert Grid(s, n) == Grid(s, n - 1) + slice;
      assert Grid(s, n - 1) !! slice;
      assert |s| * n == |s| * (n - 1) + |s|;
    }
  }

  lemma {:induction false} ExpectedSize(cases: nat, repetitions: nat)
    ensures |ExpectedKeys(cases, repetitions)| == 3 * cases * repetitions
  {
    GridSize(ARMS, cases);
    GridSize(Grid(ARMS, cases), repetitions);
  }

  /** An accepted matrix lists every expected key exactly once. */
  lemma {:induction false} AcceptedKeysAreDistinct(rows: seq<TrialRow>, cases: nat, repetitions: nat)
    requires LiveMatrixAccepted(rows, cases, repetitions)
    ensures Distinct(MatrixKeys(rows))
  {
    ExpectedSize(cases, repetitions);
    CountDistinct(MatrixKeys(rows));
  }

  lemma {:induction false} NoEarlierKey(rows: seq<TrialRow>, n: nat, i: nat)
    requires i < n < |rows| && Distinct(MatrixKeys(rows)) && rows[i].baseline == rows[n].baseline
    ensures KeyOf(rows[i]) != KeyOf(rows[n])
  {
    assert MatrixKeys(rows)[i] != MatrixKeys(rows)[n];
  }

  /** Where keys are distinct, the first `n` rows of one arm index without a clash. */
  lemma {:induction false} ArmIndexes(rows: seq<TrialRow>, n: nat, baseline: string)
    requires n <= |rows| && Distinct(MatrixKeys(rows))
    ensures Index(ArmRows(rows, n, baseline)).Success?
    ensures forall k ::
              k in Index(ArmRows(rows, n, baseline)).value.Keys
              <==> exists i | 0 <= i < n :: rows[i].baseline == baseline && KeyOf(rows[i]) == k
    decreases n
  {
    if n > 0 {
      ArmIndexes(rows, n - 1, baseline);
      var before, row := ArmRows(rows, n - 1, baseline), rows[n - 1];
      var now := ArmRows(rows, n, baseline);
      if row.baseline == baseline {
        assert now == before + [row];
        IndexPrefix(before, row, |before|);
        forall i | 0 <= i < n - 1 && rows[i].baseline == baseline
          ensures KeyOf(rows[i]) != KeyOf(row)
        {
          NoEarlierKey(rows, n - 1, i);
        }
      } else {
        assert now == before;
      }
    }
  }

  lemma {:induction false} IndexPrefix(rows: seq<TrialRow>, last: TrialRow, n: nat)
    requires n <= |rows|
    ensures IndexUpTo(rows + [last], n) == IndexUpTo(rows, n)
    decreases n
  {
    if n > 0 {
      IndexPrefix(rows, last, n - 1);
    }
  }

  lemma {:induction false} ArmKeys(rows: seq<TrialRow>, cases: nat, repetitions: nat, baseline: string)
    requires LiveMatrixAccepted(rows, cases, repetitions) && baseline in ARMS
    ensures Index(Arm(rows, baseline)).Success?
    ensures Index(Arm(rows, baseline)).value.Keys == Grid(Numbers(cases), repetitions)
  {
    AcceptedKeysAreDistinct(rows, cases, repetitions);
    ArmIndexes(rows, |rows|, baseline);
    var keys := Index(Arm(rows, baseline)).value.Keys;
    forall c: Case, r: int
      ensures (c, r) in keys <==> (c, r) in Grid(Numbers(cases), repetitions)
    {
      assert ((baseline, c), r) in ExpectedKeys(cases, repetitions) <==> 1 <= c <= cases && 1 <= r <= repetitions by {
        assert (baseline, c) in Grid(ARMS, cases) <==> 1 <= c <= cases;
      }
      assert ((baseline, c), r) in Elements(MatrixKeys(rows)) <==> exists i | 0 <= i < |rows| :: MatrixKeys(rows)[i] == ((baseline, c), r);
      if (c, r) in keys {
        var i :| 0 <= i < |rows| && rows[i].baseline == baseline && KeyOf(rows[i]) == (c, r);
        assert MatrixKeys(rows)[i] == ((baseline, c), r);
      }
      if ((baseline, c), r) in Elements(MatrixKeys(rows)) {
        var i :| 0 <= i < |rows| && MatrixKeys(rows)[i] == ((baseline, c), r);
        assert rows[i].baseline == baseline && KeyOf(rows[i]) == (c, r);
      }
    }
  }

  lemma {:induction false} GridCases(cases: nat, repetitions: nat)
    requires repetitions > 0
    ensures CasesIn(Grid(Numbers(cases), repetitions)) == Numbers(cases)
  {
    forall c | c in Numbers(cases)
      ensures c in CasesIn(Grid(Numbers(cases), repetitions))
    {
      assert (c, 1) in Grid(Numbers(cases), repetitions);
    }
  }

  /** Between two arms of an accepted live matrix the paired bootstrap never fails. */
  lemma {:induction false} LiveArmsAlwaysAlign(rows: seq<TrialRow>, cases: nat, repetitions: nat, left: string, right: string, draws: seq<seq<nat>>)
    requires LiveMatrixAccepted(rows, cases, repetitions) && left in ARMS && right in ARMS
    requires cases > 0 && draws != [] && ValidDraws(draws, cases)
    ensures PairedBootstrap(Arm(rows, left), Arm(rows, right), cases, draws).Success?
  {
    ArmKeys(rows, cases, repetitions, left);
    ArmKeys(rows, cases, repetitions, right);
    GridCases(cases, repetitions);
    OrderedKeys(Numbers(cases));
  }
}
