/**
 * The separability probe of `g03_separability.py`: the offset table under two threshold rules, the
 * largest-excess classifier D1 and its single-signal ablation D4, and the counting tables built over
 * it. Labels are numbered in lexical order, the order of the registered labels themselves.
 */
module Separability {
  import opened Prelude
  import Scoring
  import ScoringMeaning
  import Thresholds
  import ThresholdMeaning

  datatype Rule = P99 | BareQuantum

  /** One signal of one case: its excess over the healthy median and the two cutoffs it is held against. */
  datatype Cell = Cell(excess: real, p99: real, bare: real, quantum: real) {
    function Cutoff(rule: Rule): real {
      if rule == P99 then p99 else bare
    }

    predicate Qualifies(rule: Rule) {
      excess >= Cutoff(rule)
    }
  }

  function Score(cell: Cell, rule: Rule): real
    requires cell.quantum > 0.0
  {
    Scoring.Standardized(cell.excess, cell.Cutoff(rule), cell.quantum)
  }

  datatype Row = Row(root: nat, signals: seq<Cell>)

  ghost predicate ValidRow(row: Row, labels: nat) {
    && row.root < labels && |row.signals| == labels
    && forall l | 0 <= l < labels :: row.signals[l].quantum > 0.0
  }

  ghost predicate ValidTable(table: seq<Row>, labels: nat) {
    forall i | 0 <= i < |table| :: ValidRow(table[i], labels)
  }

  // ---------------------------------------------------------------------------------------------
  // The offset table.

  /** What the probe reads a cell from: the registry, the labels in lexical order, the case packets. */
  ghost predicate Measured(r: Thresholds.Registry, names: seq<Thresholds.Label>, cases: seq<Thresholds.Packet>) {
    && |cases| > 1
    && forall l | 0 <= l < |names| ::
         && Thresholds.CompleteCases(cases, names[l], Thresholds.RootSignal)
         && (names[l], Thresholds.RootSignal) in r.quantum && r.quantum[(names[l], Thresholds.RootSignal)] > 0.0
  }

  function CellOf(r: Thresholds.Registry, names: seq<Thresholds.Label>, cases: seq<Thresholds.Packet>, i: nat, l: nat): Cell
    requires Measured(r, names, cases) && i < |cases| && l < |names|
  {
    var windows := cases[i][(names[l], Thresholds.RootSignal)];
    var quantum := r.quantum[(names[l], Thresholds.RootSignal)];
    Cell(Scoring.Excess(windows),
         Thresholds.Threshold(r, cases, i, names[l], Thresholds.RootSignal),
         Thresholds.Floored(r, quantum, windows.healthy, names[l]),
         quantum)
  }

  /** The cells of one case, label by label. */
  ghost function CellsOf(r: Thresholds.Registry, names: seq<Thresholds.Label>, cases: seq<Thresholds.Packet>, i: nat): nat -> Option<Cell>
    requires Measured(r, names, cases) && i < |cases|
  {
    (l: nat) => if l < |names| then Some(CellOf(r, names, cases, i, l)) else None
  }

  ghost predicate HoldsUpTo(cells: nat -> Option<Cell>, n: nat, signals: seq<Cell>) {
    |signals| == n && forall l: nat | l < n :: cells(l) == Some(signals[l])
  }

  /** A row holds the case's root and one measured cell for each label. */
  ghost predicate IsRow(r: Thresholds.Registry, names: seq<Thresholds.Label>, cases: seq<Thresholds.Packet>, i: nat, root: nat, row: Row)
    requires Measured(r, names, cases) && i < |cases|
  {
    row.root == root && HoldsUpTo(CellsOf(r, names, cases, i), |names|, row.signals)
  }

  /** One cell: its excess over the healthy median and both cutoffs. */
  method MeasureCell(r: Thresholds.Registry, names: seq<Thresholds.Label>, cases: seq<Thresholds.Packet>, i: nat, l: nat) returns (cell: Cell)
    requires Measured(r, names, cases) && i < |cases| && l < |names|
    ensures CellsOf(r, names, cases, i)(l) == Some(cell)
  {
    cell := CellOf(r, names, cases, i, l);
  }

  lemma OneMoreCell(cells: nat -> Option<Cell>, n: nat, signals: seq<Cell>, cell: Cell)
    requires HoldsUpTo(cells, n, signals) && cells(n) == Some(cell)
    ensures HoldsUpTo(cells, n + 1, signals + [cell])
  {
  }

  method OffsetRow(r: Thresholds.Registry, names: seq<Thresholds.Label>, cases: seq<Thresholds.Packet>, i: nat, root: nat) returns (row: Row)
    requires Measured(r, names, cases) && i < |cases|
    ensures IsRow(r, names, cases, i, root, row)
  {
    var signals: seq<Cell> := [];
    for l := 0 to |names|
      invariant HoldsUpTo(CellsOf(r, names, cases, i), l, signals)
    {
      var cell := MeasureCell(r, names, cases, i, l);
      OneMoreCell(CellsOf(r, names, cases, i), l, signals, cell);
      signals := signals + [cell];
    }
    row := Row(root, signals);
  }

  method OffsetTable(r: Thresholds.Registry, names: seq<Thresholds.Label>, cases: seq<Thresholds.Packet>, truth: seq<nat>) returns (table: seq<Row>)
    requires Measured(r, names, cases)
    requires |truth| == |cases| && forall i | 0 <= i < |truth| :: truth[i] < |names|
    ensures |table| == |cases|
    ensures forall i | 0 <= i < |table| :: IsRow(r, names, cases, i, truth[i], table[i])
  {
    table := [];
    for i := 0 to |cases|
      invariant |table| == i
      invariant forall k | 0 <= k < i :: IsRow(r, names, cases, k, truth[k], table[k])
    {
      var row := OffsetRow(r, names, cases, i, truth[i]);
      table := table + [row];
    }
  }

  /** Measured rows are well formed, and whatever qualifies under p99 qualifies under the bare quantum. */
  lemma {:induction false} MeasuredRow(r: Thresholds.Registry, names: seq<Thresholds.Label>, cases: seq<Thresholds.Packet>, i: nat, row: Row)
    requires Measured(r, names, cases) && i < |cases| && row.root < |names| && IsRow(r, names, cases, i, row.root, row)
    ensures ValidRow(row, |names|)
    ensures forall l: nat :: Fires(row, P99, None, l) ==> Fires(row, BareQuantum, None, l)
  {
    forall l: nat | Fires(row, P99, None, l)
      ensures Fires(row, BareQuantum, None, l)
    {
      P99IsTheStricterRule(r, names, cases, i, l);
    }
  }

  lemma {:induction false} DriftsAreNotNegative(cases: seq<Thresholds.Packet>, n: nat, heldOut: nat, root: Thresholds.Label, v: real)
    requires n <= |cases| && Thresholds.CompleteCases(cases, root, Thresholds.RootSignal)
    requires v in Thresholds.Pool(cases, n, heldOut, root, Thresholds.RootSignal)
    ensures v >= 0.0
    decreases n
  {
    if n > 0 && v in Thresholds.Pool(cases, n - 1, heldOut, root, Thresholds.RootSignal) {
      DriftsAreNotNegative(cases, n - 1, heldOut, root, v);
    }
  }

  /** The p99 cutoff is never below the bare-quantum one, relative floor included. */
  lemma {:induction false} P99IsTheStricterRule(r: Thresholds.Registry, names: seq<Thresholds.Label>, cases: seq<Thresholds.Packet>, i: nat, l: nat)
    requires Measured(r, names, cases) && i < |cases| && l < |names|
    ensures CellOf(r, names, cases, i, l).p99 >= CellOf(r, names, cases, i, l).bare
  {
    var pool := Thresholds.Pool(cases, |cases|, i, names[l], Thresholds.RootSignal);
    Thresholds.NearestRankIsPercentile(pool, Thresholds.PERCENTILE);
    DriftsAreNotNegative(cases, |cases|, i, names[l], Thresholds.NearestRank(pool, Thresholds.PERCENTILE));
  }

  /** A cutoff under a relative floor, where the signal has one, taken at `m`. */
  function Raised(r: Thresholds.Registry, name: Thresholds.Label, cutoff: real, m: real): real {
    if name in r.floors && r.floors[name](m) > cutoff then r.floors[name](m) else cutoff
  }

  /**
   * A cell in the readings: under p99 the cutoff is the healthy percentile of the other cases' rises plus
   * the quantum, under the bare rule the quantum alone, either one raised by a relative floor at the
   * middle healthy reading; and the signal qualifies if one of its two fault readings stands out by it.
   */
  lemma {:induction false} CellMeans(r: Thresholds.Registry, names: seq<Thresholds.Label>, cases: seq<Thresholds.Packet>, i: nat, l: nat)
    returns (p: real, m: real)
    requires Measured(r, names, cases) && i < |cases| && l < |names|
    ensures ThresholdMeaning.IsHealthyPercentile(cases, i, names[l], Thresholds.RootSignal, p)
    ensures
      var cell, windows := CellOf(r, names, cases, i, l), cases[i][(names[l], Thresholds.RootSignal)];
      var quantum := r.quantum[(names[l], Thresholds.RootSignal)];
      && ScoringMeaning.IsMiddle(windows.healthy, m)
      && cell.p99 == Raised(r, names[l], p + quantum, m) && cell.bare == Raised(r, names[l], quantum, m) && cell.quantum == quantum
      && (cell.Qualifies(P99) <==> ScoringMeaning.FaultStandsOut(windows, cell.p99))
      && (cell.Qualifies(BareQuantum) <==> ScoringMeaning.FaultStandsOut(windows, cell.bare))
      && (forall c: real :: cell.excess >= c <==> ScoringMeaning.FaultStandsOut(windows, c))
  {
    var windows := cases[i][(names[l], Thresholds.RootSignal)];
    p, m := ThresholdMeaning.ThresholdMeans(r, cases, i, names[l], Thresholds.RootSignal);
    ScoringMeaning.MiddleIsMedian(windows.healthy, m);
    forall c: real ensures Scoring.Excess(windows) >= c <==> ScoringMeaning.FaultStandsOut(windows, c) {
      ScoringMeaning.ExcessMeans(windows, c);
    }
  }

  /** A standardized excess tells a qualification by its sign, and is the margin in units of the larger of cutoff and quantum. */
  lemma {:induction false} ScoreMeans(cell: Cell, rule: Rule)
    requires cell.quantum > 0.0
    ensures
      var cutoff := if rule.P99? then cell.p99 else cell.bare;
      && (Score(cell, rule) >= 0.0 <==> cell.Qualifies(rule))
      && Score(cell, rule) * (if cutoff >= cell.quantum then cutoff else cell.quantum) == cell.excess - cutoff
  {
    Scoring.StandardizedSign(cell.excess, cell.Cutoff(rule), cell.quantum);
    ScoringMeaning.StandardizedMeans(cell.excess, cell.Cutoff(rule), cell.quantum);
  }

  // ---------------------------------------------------------------------------------------------
  // D1 and its ablation.

  predicate Allowed(restrictTo: Option<nat>, l: nat) {
    restrictTo == None || restrictTo == Some(l)
  }

  predicate Fires(row: Row, rule: Rule, restrictTo: Option<nat>, l: nat) {
    l < |row.signals| && Allowed(restrictTo, l) && row.signals[l].Qualifies(rule)
  }

  /** Larger standardized excess first, then the lexically earlier label. */
  ghost predicate Precedes(row: Row, rule: Rule, a: nat, b: nat)
    requires ValidRow(row, |row.signals|) && a < |row.signals| && b < |row.signals|
  {
    var x, y := Score(row.signals[a], rule), Score(row.signals[b], rule);
    x > y || (x == y && a <= b)
  }

  /** The answer names the first firing signal in that order, and abstains when none fires. */
  ghost predicate IsPrediction(row: Row, rule: Rule, restrictTo: Option<nat>, answer: Option<nat>)
    requires ValidRow(row, |row.signals|)
  {
    match answer
    case None => forall l: nat :: !Fires(row, rule, restrictTo, l)
    case Some(best) =>
      Fires(row, rule, restrictTo, best)
      && forall l: nat :: Fires(row, rule, restrictTo, l) ==> Precedes(row, rule, best, l)
  }

  lemma {:induction false} PredictionIsUnique(row: Row, rule: Rule, restrictTo: Option<nat>, a: Option<nat>, b: Option<nat>)
    requires ValidRow(row, |row.signals|)
    requires IsPrediction(row, rule, restrictTo, a) && IsPrediction(row, rule, restrictTo, b)
    ensures a == b
  {
    if a.Some? && b.Some? {
      assert Precedes(row, rule, a.value, b.value) && Precedes(row, rule, b.value, a.value);
    }
  }

  method ClassifyFromOffsets(row: Row, rule: Rule, restrictTo: Option<nat>) returns (answer: Option<nat>)
    requires ValidRow(row, |row.signals|)
    ensures IsPrediction(row, rule, restrictTo, answer)
  {
    var candidates: seq<nat> := [];
    for l := 0 to |row.signals|
      invariant forall c | c in candidates :: c < l
      invariant forall k: nat | k < l :: k in candidates <==> Fires(row, rule, restrictTo, k)
    {
      if restrictTo != None && restrictTo != Some(l) {
        continue;
      }
      if row.signals[l].Qualifies(rule) {
        candidates := candidates + [l];
      }
    }
    if candidates == [] {
      return None;
    }
    var best := candidates[0];
    assert forall c | c in candidates :: Fires(row, rule, restrictTo, c);
    for j := 1 to |candidates|
      invariant best in candidates
      invariant forall k | 0 <= k < |candidates| :: candidates[k] in candidates && Fires(row, rule, restrictTo, candidates[k])
      invariant forall k | 0 <= k < j :: Precedes(row, rule, best, candidates[k])
    {
      var x, y := Score(row.signals[candidates[j]], rule), Score(row.signals[best], rule);
      if x > y || (x == y && candidates[j] < best) {
        best := candidates[j];
      }
    }
    return Some(best);
  }

  /** A run that reads one signal names it exactly when it qualifies, and otherwise abstains. */
  lemma {:induction false} SingleSignalRun(row: Row, rule: Rule, l: nat, answer: Option<nat>)
    requires ValidRow(row, |row.signals|) && l < |row.signals|
    requires IsPrediction(row, rule, Some(l), answer)
    ensures answer == if row.signals[l].Qualifies(rule) then Some(l) else None
  {
    assert Fires(row, rule, Some(l), l) <==> row.signals[l].Qualifies(rule);
  }

  /** D1 abstains exactly when every single-signal run does, and its answer fires in its own run. */
  lemma {:induction false} UnrestrictedAgainstAblation(row: Row, rule: Rule, d1: Option<nat>, runs: seq<Option<nat>>)
    requires ValidRow(row, |row.signals|) && |runs| == |row.signals|
    requires IsPrediction(row, rule, None, d1)
    requires forall l | 0 <= l < |runs| :: IsPrediction(row, rule, Some(l), runs[l])
    ensures d1 == None <==> forall l | 0 <= l < |runs| :: runs[l] == None
    ensures d1 != None ==> d1.value < |runs| && runs[d1.value] == d1
    ensures forall l | 0 <= l < |runs| :: runs[l] == None || runs[l] == Some(l)
  {
    forall l | 0 <= l < |runs|
      ensures runs[l] == if row.signals[l].Qualifies(rule) then Some(l) else None
      ensures Fires(row, rule, None, l) <==> row.signals[l].Qualifies(rule)
    {
      SingleSignalRun(row, rule, l, runs[l]);
    }
  }

  // ---------------------------------------------------------------------------------------------
  // Counting.

  /** Cases among the first `n` on which signal `l` qualifies and is, or is not, the true family. */
  function Own(table: seq<Row>, n: nat, rule: Rule, l: nat): nat
    requires n <= |table|
  {
    if n == 0 then 0 else
      Own(table, n - 1, rule, l) + if Fires(table[n - 1], rule, None, l) && table[n - 1].root == l then 1 else 0
  }

  /** The foreign cases, in order. */
  function Foreign(table: seq<Row>, n: nat, rule: Rule, l: nat): seq<nat>
    requires n <= |table|
  {
    if n == 0 then [] else
      Foreign(table, n - 1, rule, l)
      + if Fires(table[n - 1], rule, None, l) && table[n - 1].root != l then [n - 1] else []
  }

  lemma {:induction false} ForeignAreTheFalseQualifications(table: seq<Row>, n: nat, rule: Rule, l: nat, i: nat)
    requires n <= |table|
    ensures i in Foreign(table, n, rule, l) <==> i < n && Fires(table[i], rule, None, l) && table[i].root != l
    decreases n
  {
    if n > 0 {
      ForeignAreTheFalseQualifications(table, n - 1, rule, l, i);
    }
  }

  /** Cases on which both signals qualify. */
  function Together(table: seq<Row>, n: nat, rule: Rule, left: nat, right: nat): nat
    requires n <= |table|
  {
    if n == 0 then 0 else
      Together(table, n - 1, rule, left, right)
      + if Fires(table[n - 1], rule, None, left) && Fires(table[n - 1], rule, None, right) then 1 else 0
  }

  /** The signals of a row among the first `m` that qualify, in lexical order. */
  function Offset(row: Row, rule: Rule, m: nat): (offset: seq<nat>)
    ensures forall l: nat :: l in offset <==> l < m && Fires(row, rule, None, l)
    ensures |offset| <= m
  {
    if m == 0 then [] else Offset(row, rule, m - 1) + if Fires(row, rule, None, m - 1) then [m - 1] else []
  }

  /** Cases with exactly `k` qualifying signals. */
  function OfSize(table: seq<Row>, n: nat, rule: Rule, labels: nat, k: nat): nat
    requires n <= |table|
  {
    if n == 0 then 0 else
      OfSize(table, n - 1, rule, labels, k) + if |Offset(table[n - 1], rule, labels)| == k then 1 else 0
  }

  /** The diagonal of the co-occurrence counts, over the first `m` labels. */
  function Diagonal(table: seq<Row>, n: nat, rule: Rule, m: nat): nat
    requires n <= |table|
  {
    if m == 0 then 0 else Diagonal(table, n, rule, m - 1) + Together(table, n, rule, m - 1, m - 1)
  }

  /** The offset counts below `m`, weighted by their size. */
  function Weighted(table: seq<Row>, n: nat, rule: Rule, labels: nat, m: nat): nat
    requires n <= |table|
  {
    if m == 0 then 0 else
      Weighted(table, n, rule, labels, m - 1) + (m - 1) * OfSize(table, n, rule, labels, m - 1)
  }

  lemma {:induction false} CoOccurrenceIsSymmetric(table: seq<Row>, n: nat, rule: Rule, left: nat, right: nat)
    requires n <= |table|
    ensures Together(table, n, rule, left, right) == Together(table, n, rule, right, left)
    ensures Together(table, n, rule, left, right) <= Together(table, n, rule, left, left)
    decreases n
  {
    if n > 0 {
      CoOccurrenceIsSymmetric(table, n - 1, rule, left, right);
    }
  }

  lemma {:induction false} DiagonalIsOwnPlusForeign(table: seq<Row>, n: nat, rule: Rule, l: nat)
    requires n <= |table|
    ensures Together(table, n, rule, l, l) == Own(table, n, rule, l) + |Foreign(table, n, rule, l)|
    decreases n
  {
    if n > 0 {
      DiagonalIsOwnPlusForeign(table, n - 1, rule, l);
    }
  }

  lemma {:induction false} DiagonalStep(table: seq<Row>, n: nat, rule: Rule, m: nat)
    requires 0 < n <= |table|
    ensures Diagonal(table, n, rule, m) == Diagonal(table, n - 1, rule, m) + |Offset(table[n - 1], rule, m)|
    decreases m
  {
    if m > 0 {
      DiagonalStep(table, n, rule, m - 1);
    }
  }

  lemma OneMore(k: nat, count: nat)
    ensures k * (count + 1) == k * count + k
  {
  }

  lemma {:induction false} WeightedStep(table: seq<Row>, n: nat, rule: Rule, labels: nat, m: nat, size: nat)
    requires 0 < n <= |table| && size == |Offset(table[n - 1], rule, labels)|
    ensures Weighted(table, n, rule, labels, m) == Weighted(table, n - 1, rule, labels, m) + if size < m then size else 0
    decreases m
  {
    if m > 0 {
      WeightedStep(table, n, rule, labels, m - 1, size);
      var before := OfSize(table, n - 1, rule, labels, m - 1);
      assert OfSize(table, n, rule, labels, m - 1) == if size == m - 1 then before + 1 else before;
      OneMore(m - 1, before);
    }
  }

  lemma {:induction false} Unweighted(table: seq<Row>, rule: Rule, labels: nat, m: nat)
    ensures Diagonal(table, 0, rule, m) == 0 && Weighted(table, 0, rule, labels, m) == 0
    decreases m
  {
    if m > 0 {
      Unweighted(table, rule, labels, m - 1);
    }
  }

  /** Counting the qualifying cells by signal or by case gives the same total, for any number of cases. */
  lemma {:induction false} DoubleCounting(table: seq<Row>, n: nat, rule: Rule, labels: nat)
    requires n <= |table|
    ensures Diagonal(table, n, rule, labels) == Weighted(table, n, rule, labels, labels + 1)
    decreases n
  {
    if n == 0 {
      Unweighted(table, rule, labels, labels);
      Unweighted(table, rule, labels, labels + 1);
    } else {
      DoubleCounting(table, n - 1, rule, labels);
      DiagonalStep(table, n, rule, labels);
      WeightedStep(table, n, rule, labels, labels + 1, |Offset(table[n - 1], rule, labels)|);
    }
  }

  // ---------------------------------------------------------------------------------------------
  // The tables themselves.

  datatype Qualifications = Qualifications(own: nat, foreign: nat, foreignCases: seq<nat>)

  /** The report of one signal: both rules, and the foreign qualifications the p99 rule removes. */
  datatype SignalReport = SignalReport(p99: Qualifications, bare: Qualifications, removed: int)

  ghost predicate Reports(table: seq<Row>, n: nat, rule: Rule, l: nat, q: Qualifications)
    requires n <= |table|
  {
    && q.own == Own(table, n, rule, l)
    && q.foreignCases == Foreign(table, n, rule, l)
    && q.foreign == |q.foreignCases|
  }

  function Tallied(q: Qualifications, row: Row, i: nat, rule: Rule, l: nat): Qualifications
    requires l < |row.signals|
  {
    if !row.signals[l].Qualifies(rule) then q
    else if row.root == l then q.(own := q.own + 1)
    else q.(foreign := q.foreign + 1, foreignCases := q.foreignCases + [i])
  }

  method FalseQualificationTable(table: seq<Row>, labels: nat) returns (reports: seq<SignalReport>)
    requires ValidTable(table, labels)
    ensures |reports| == labels
    ensures forall l | 0 <= l < labels ::
              && Reports(table, |table|, P99, l, reports[l].p99)
              && Reports(table, |table|, BareQuantum, l, reports[l].bare)
              && reports[l].removed == reports[l].bare.foreign - reports[l].p99.foreign
  {
    reports := [];
    for l := 0 to labels
      invariant |reports| == l
      invariant forall k | 0 <= k < l ::
                  && Reports(table, |table|, P99, k, reports[k].p99)
                  && Reports(table, |table|, BareQuantum, k, reports[k].bare)
                  && reports[k].removed == reports[k].bare.foreign - reports[k].p99.foreign
    {
      var p99, bare := Qualifications(0, 0, []), Qualifications(0, 0, []);
      for i := 0 to |table|
        invariant Reports(table, i, P99, l, p99) && Reports(table, i, BareQuantum, l, bare)
      {
        p99 := Tallied(p99, table[i], i, P99, l);
        bare := Tallied(bare, table[i], i, BareQuantum, l);
      }
      reports := reports + [SignalReport(p99, bare, bare.foreign - p99.foreign)];
    }
  }

  /** On a table where p99 is the stricter rule, it only ever removes false qualifications. */
  lemma {:induction false} RemovedIsNotNegative(table: seq<Row>, n: nat, l: nat)
    requires n <= |table|
    requires forall i | 0 <= i < |table| && Fires(table[i], P99, None, l) :: Fires(table[i], BareQuantum, None, l)
    ensures |Foreign(table, n, P99, l)| <= |Foreign(table, n, BareQuantum, l)|
    ensures Own(table, n, P99, l) <= Own(table, n, BareQuantum, l)
    decreases n
  {
    if n > 0 {
      RemovedIsNotNegative(table, n - 1, l);
    }
  }

  /** On every table the probe measures, p99 only removes qualifications, false and true ones. */
  lemma {:induction false} MeasuredTableOnlyLoses(r: Thresholds.Registry, names: seq<Thresholds.Label>, cases: seq<Thresholds.Packet>, truth: seq<nat>, table: seq<Row>, l: nat)
    requires Measured(r, names, cases)
    requires |truth| == |cases| == |table| && forall i | 0 <= i < |truth| :: truth[i] < |names|
    requires forall i | 0 <= i < |table| :: IsRow(r, names, cases, i, truth[i], table[i])
    ensures ValidTable(table, |names|)
    ensures |Foreign(table, |table|, P99, l)| <= |Foreign(table, |table|, BareQuantum, l)|
    ensures Own(table, |table|, P99, l) <= Own(table, |table|, BareQuantum, l)
  {
    forall i | 0 <= i < |table|
      ensures ValidRow(table[i], |names|)
      ensures Fires(table[i], P99, None, l) ==> Fires(table[i], BareQuantum, None, l)
    {
      assert IsRow(r, names, cases, i, truth[i], table[i]);
      MeasuredRow(r, names, cases, i, table[i]);
    }
    RemovedIsNotNegative(table, |table|, l);
  }

  ghost predicate CountsPairs(table: seq<Row>, n: nat, rule: Rule, labels: nat, matrix: map<(nat, nat), nat>)
    requires n <= |table|
  {
    forall left: nat, right: nat | left < labels && right < labels ::
      Lookup(matrix, (left, right)) == Together(table, n, rule, left, right)
  }

  ghost predicate CountsSizes(table: seq<Row>, n: nat, rule: Rule, labels: nat, counts: map<nat, nat>)
    requires n <= |table|
  {
    forall k: nat :: Lookup(counts, k) == OfSize(table, n, rule, labels, k)
  }

  /** The inner double loop: one more case in the co-occurrence matrix. */
  method AddPairs(matrix: map<(nat, nat), nat>, offset: seq<nat>) returns (after: map<(nat, nat), nat>)
    requires Distinct(offset)
    ensures forall a: nat, b: nat :: Lookup(after, (a, b)) == Lookup(matrix, (a, b)) + if a in offset && b in offset then 1 else 0
  {
    after := matrix;
    for i := 0 to |offset|
      invariant forall a: nat, b: nat ::
                  Lookup(after, (a, b)) == Lookup(matrix, (a, b)) + if a in offset[..i] && b in offset then 1 else 0
    {
      ghost var before := after;
      for j := 0 to |offset|
        invariant forall a: nat, b: nat ::
                    Lookup(after, (a, b)) == Lookup(before, (a, b)) + if a == offset[i] && b in offset[..j] then 1 else 0
      {
        after := after[(offset[i], offset[j]) := Lookup(after, (offset[i], offset[j])) + 1];
        assert offset[..j + 1] == offset[..j] + [offset[j]];
        assert offset[j] !in offset[..j];
      }
      assert offset[..|offset|] == offset;
      assert offset[..i + 1] == offset[..i] + [offset[i]];
      assert offset[i] !in offset[..i];
    }
    assert offset[..|offset|] == offset;
  }

  lemma {:induction false} OffsetIsDistinct(row: Row, rule: Rule, m: nat)
    ensures Distinct(Offset(row, rule, m))
    decreases m
  {
    if m > 0 {
      OffsetIsDistinct(row, rule, m - 1);
      assert m - 1 !in Offset(row, rule, m - 1);
    }
  }

  /** `orthogonality` for one rule: the size distribution, its mean and the co-occurrence matrix. */
  method Orthogonality(table: seq<Row>, labels: nat, rule: Rule)
    returns (counts: map<nat, nat>, matrix: map<(nat, nat), nat>, mean: real)
    requires ValidTable(table, labels)
    ensures CountsPairs(table, |table|, rule, labels, matrix)
    ensures CountsSizes(table, |table|, rule, labels, counts)
    ensures mean == if table == [] then 0.0 else (Diagonal(table, |table|, rule, labels) as real) / (|table| as real)
  {
    counts, matrix := map[], map[];
    for i := 0 to |table|
      invariant CountsPairs(table, i, rule, labels, matrix)
      invariant CountsSizes(table, i, rule, labels, counts)
    {
      var offset := Offset(table[i], rule, labels);
      counts := counts[|offset| := Lookup(counts, |offset|) + 1];
      OffsetIsDistinct(table[i], rule, labels);
      matrix := AddPairs(matrix, offset);
    }
    var total := 0;
    for k := 0 to labels + 1
      invariant total == Weighted(table, |table|, rule, labels, k)
    {
      total := total + k * Lookup(counts, k);
    }
    DoubleCounting(table, |table|, rule, labels);
    mean := if table == [] then 0.0 else (total as real) / (|table| as real);
  }

  /** One ablation run: what it answers, how often that is right, and where it fires on foreign cases. */
  datatype Run = Run(answers: seq<Option<nat>>, recovered: nat, firedForeign: seq<nat>)

  /**
   * `ablation` under the p99 rule. Each run recovers exactly the true qualifications of its signal
   * and fires on exactly the false ones.
   */
  method Ablation(table: seq<Row>, labels: nat) returns (runs: seq<Run>)
    requires ValidTable(table, labels)
    ensures |runs| == labels
    ensures forall l | 0 <= l < labels :: |runs[l].answers| == |table|
    ensures forall l, i | 0 <= l < labels && 0 <= i < |table| ::
              IsPrediction(table[i], P99, Some(l), runs[l].answers[i])
    ensures forall l | 0 <= l < labels ::
              runs[l].recovered == Own(table, |table|, P99, l) && runs[l].firedForeign == Foreign(table, |table|, P99, l)
  {
    runs := [];
    for l := 0 to labels
      invariant |runs| == l
      invariant forall k | 0 <= k < l :: |runs[k].answers| == |table|
      invariant forall k, i | 0 <= k < l && 0 <= i < |table| ::
                  IsPrediction(table[i], P99, Some(k), runs[k].answers[i])
      invariant forall k | 0 <= k < l ::
                  runs[k].recovered == Own(table, |table|, P99, k) && runs[k].firedForeign == Foreign(table, |table|, P99, k)
    {
      var answers, recovered, fired := [], 0, [];
      for i := 0 to |table|
        invariant |answers| == i
        invariant forall k | 0 <= k < i :: IsPrediction(table[k], P99, Some(l), answers[k])
        invariant recovered == Own(table, i, P99, l) && fired == Foreign(table, i, P99, l)
      {
        var answer := ClassifyFromOffsets(table[i], P99, Some(l));
        SingleSignalRun(table[i], P99, l, answer);
        answers := answers + [answer];
        if answer == Some(table[i].root) {
          recovered := recovered + 1;
        } else if answer == Some(l) {
          fired := fired + [i];
        }
      }
      runs := runs + [Run(answers, recovered, fired)];
    }
  }
}
