/**
 * Ranking, the deterministic baseline and the scorers: `deterministic_candidates_v3`,
 * `deterministic_baseline_v3` and `score_result_v3` of `g03_readiness.py`, and `_score_result_v2`
 * of `g02_baselines.py`. Results are those a schema validator has let through.
 */
module Scoring {
  import opened Prelude
  import opened Thresholds

  // ---------------------------------------------------------------------------------------------
  // Candidates.

  /** The registry of labels: their set in declaration order, their place in lexical order, their evidence kinds. */
  datatype Catalog = Catalog(
    causes: seq<Label>,
    order: map<Label, int>,
    kinds: set<string>,
    requiredKinds: map<Label, set<string>>)

  ghost predicate ValidCatalog(c: Catalog) {
    && Distinct(c.causes) && "unknown" !in c.causes
    && (forall root | root in c.causes :: root in c.order && root in c.requiredKinds)
    && (forall a, b | a in c.causes && b in c.causes && c.order[a] == c.order[b] :: a == b)
    && (forall root | root in c.causes :: c.requiredKinds[root] <= c.kinds && |c.requiredKinds[root]| == 2)
    && |c.kinds| == 6
  }

  /** The cutoff and the quantum of each label and feature, for one case. */
  type CaseThresholds = map<(Label, Feature), (real, real)>

  ghost predicate Registered(c: Catalog, t: CaseThresholds, packet: Packet) {
    forall root, f: Feature | root in c.causes :: (root, f) in t && t[(root, f)].1 > 0.0 && Complete(packet, root, f)
  }

  function Excess(w: Windows): real
    requires |w.healthy| == HEALTHY_WINDOWS && |w.fault| == FAULT_WINDOWS
  {
    Max(w.fault[0], w.fault[1]) - Median(w.healthy)
  }

  function Standardized(excess: real, cutoff: real, quantum: real): real
    requires quantum > 0.0
  {
    (excess - cutoff) / Max(cutoff, quantum)
  }

  function FeatureScore(t: CaseThresholds, packet: Packet, root: Label, f: Feature): real
    requires (root, f) in t && t[(root, f)].1 > 0.0 && Complete(packet, root, f)
  {
    Standardized(Excess(packet[(root, f)]), t[(root, f)].0, t[(root, f)].1)
  }

  predicate Reaches(t: CaseThresholds, packet: Packet, root: Label, f: Feature)
    requires (root, f) in t && Complete(packet, root, f)
  {
    Excess(packet[(root, f)]) >= t[(root, f)].0
  }

  function Weakest(c: Catalog, t: CaseThresholds, packet: Packet, root: Label): real
    requires Registered(c, t, packet) && root in c.causes
  {
    var activity, signal := FeatureScore(t, packet, root, TraceActivity), FeatureScore(t, packet, root, RootSignal);
    if activity <= signal then activity else signal
  }

  predicate Qualifies(c: Catalog, t: CaseThresholds, packet: Packet, root: Label)
    requires Registered(c, t, packet) && root in c.causes
  {
    Reaches(t, packet, root, TraceActivity) && Reaches(t, packet, root, RootSignal)
  }

  lemma {:induction false} StandardizedSign(excess: real, cutoff: real, quantum: real)
    requires quantum > 0.0
    ensures Standardized(excess, cutoff, quantum) >= 0.0 <==> excess >= cutoff
  {
    var d := Max(cutoff, quantum);
    assert excess - cutoff == d * Standardized(excess, cutoff, quantum);
  }

  /** A label qualifies exactly when its weakest standardized excess is not negative. */
  lemma {:induction false} QualifiesIffWeakest(c: Catalog, t: CaseThresholds, packet: Packet, root: Label)
    requires Registered(c, t, packet) && root in c.causes
    ensures Qualifies(c, t, packet, root) <==> Weakest(c, t, packet, root) >= 0.0
  {
    StandardizedSign(Excess(packet[(root, TraceActivity)]), t[(root, TraceActivity)].0, t[(root, TraceActivity)].1);
    StandardizedSign(Excess(packet[(root, RootSignal)]), t[(root, RootSignal)].0, t[(root, RootSignal)].1);
  }

  /** A qualifying label and its weakest standardized excess. */
  datatype Candidate = Candidate(root: Label, weakest: real)

  /** The sort key: descending weakest excess, then the label. */
  predicate Before(c: Catalog, a: Candidate, b: Candidate)
    requires a.root in c.order && b.root in c.order
  {
    a.weakest > b.weakest || (a.weakest == b.weakest && c.order[a.root] < c.order[b.root])
  }

  ghost predicate Known(c: Catalog, s: seq<Candidate>) {
    forall i | 0 <= i < |s| :: s[i].root in c.causes
  }

  function Place(c: Catalog, x: Candidate, s: seq<Candidate>): (r: seq<Candidate>)
    requires ValidCatalog(c) && x.root in c.causes && Known(c, s)
    ensures Known(c, r)
  {
    if s == [] then [x]
    else if Before(c, x, s[0]) then [x] + s
    else [s[0]] + Place(c, x, s[1..])
  }

  /** The ranking after one more label. */
  function RankedWith(c: Catalog, t: CaseThresholds, packet: Packet, root: Label, before: seq<Candidate>): (r: seq<Candidate>)
    requires ValidCatalog(c) && Registered(c, t, packet) && root in c.causes && Known(c, before)
    ensures Known(c, r)
  {
    if Qualifies(c, t, packet, root) then Place(c, Candidate(root, Weakest(c, t, packet, root)), before) else before
  }

  /** The candidates among the first `n` labels, ranked. */
  function Ranked(c: Catalog, t: CaseThresholds, packet: Packet, n: nat): (r: seq<Candidate>)
    requires ValidCatalog(c) && Registered(c, t, packet) && n <= |c.causes|
    ensures Known(c, r)
  {
    if n == 0 then [] else RankedWith(c, t, packet, c.causes[n - 1], Ranked(c, t, packet, n - 1))
  }

  /** Strictly ordered by the sort key. */
  ghost predicate InOrder(c: Catalog, s: seq<Candidate>)
    requires ValidCatalog(c) && Known(c, s)
  {
    forall i, j | 0 <= i < j < |s| :: Before(c, s[i], s[j])
  }

  lemma {:induction false} PlaceKeepsOrder(c: Catalog, x: Candidate, s: seq<Candidate>)
    requires ValidCatalog(c) && x.root in c.causes && Known(c, s) && InOrder(c, s)
    requires forall i | 0 <= i < |s| :: s[i].root != x.root
    ensures InOrder(c, Place(c, x, s))
    ensures forall y :: y in Place(c, x, s) <==> y == x || y in s
    decreases |s|
  {
    if s != [] && !Before(c, x, s[0]) {
      var rest := s[1..];
      PlaceKeepsOrder(c, x, rest);
      assert Before(c, s[0], x);
      var placed := Place(c, x, rest);
      forall j | 0 <= j < |placed|
        ensures Before(c, s[0], placed[j])
      {
        assert placed[j] in placed;
        if placed[j] != x {
          var k :| 0 <= k < |rest| && rest[k] == placed[j];
          assert s[k + 1] == rest[k];
        }
      }
      assert s == [s[0]] + rest;
    }
  }

  /** The list holds exactly the qualifying labels among the first `n`, with their scores. */
  ghost predicate ListsExactly(c: Catalog, t: CaseThresholds, packet: Packet, n: nat, s: seq<Candidate>)
    requires Registered(c, t, packet) && n <= |c.causes|
  {
    forall x: Candidate :: x in s <==>
      && x.root in c.causes[..n] && x.root in c.causes
      && Qualifies(c, t, packet, x.root) && x.weakest == Weakest(c, t, packet, x.root)
  }

  ghost predicate RanksExactly(c: Catalog, t: CaseThresholds, packet: Packet, n: nat, s: seq<Candidate>) {
    && ValidCatalog(c) && Registered(c, t, packet) && n <= |c.causes|
    && Known(c, s) && InOrder(c, s) && ListsExactly(c, t, packet, n, s)
  }

  lemma {:induction false} RankNext(c: Catalog, t: CaseThresholds, packet: Packet, n: nat, before: seq<Candidate>, after: seq<Candidate>)
    requires RanksExactly(c, t, packet, n, before) && n < |c.causes|
    requires after == RankedWith(c, t, packet, c.causes[n], before)
    ensures RanksExactly(c, t, packet, n + 1, after)
  {
    assert c.causes[..n + 1] == c.causes[..n] + [c.causes[n]];
    if Qualifies(c, t, packet, c.causes[n]) {
      forall i | 0 <= i < |before|
        ensures before[i].root != c.causes[n]
      {
        assert before[i] in before;
      }
      PlaceKeepsOrder(c, Candidate(c.causes[n], Weakest(c, t, packet, c.causes[n])), before);
    }
  }

  lemma {:induction false} RankedExactly(c: Catalog, t: CaseThresholds, packet: Packet, n: nat) returns (s: seq<Candidate>)
    requires ValidCatalog(c) && Registered(c, t, packet) && n <= |c.causes|
    ensures s == Ranked(c, t, packet, n)
    ensures RanksExactly(c, t, packet, n, s)
    decreases n
  {
    if n == 0 {
      s := [];
    } else {
      var before := RankedExactly(c, t, packet, n - 1);
      s := RankedWith(c, t, packet, c.causes[n - 1], before);
      RankNext(c, t, packet, n - 1, before, s);
    }
  }

  /** The ranking holds exactly the qualifying labels with their scores, strictly by rank. */
  lemma {:induction false} RankingIsExact(c: Catalog, t: CaseThresholds, packet: Packet, n: nat)
    requires ValidCatalog(c) && Registered(c, t, packet) && n <= |c.causes|
    ensures RanksExactly(c, t, packet, n, Ranked(c, t, packet, n))
  {
    var s := RankedExactly(c, t, packet, n);
  }

  // ---------------------------------------------------------------------------------------------
  // Scorers.

  datatype Diagnosis = Diagnosis(
    caseId: string,
    rootCause: Label,
    candidates: seq<Label>,
    claimValue: Label,
    evidence: set<string>,
    claimRefs: set<string>)

  datatype GroundTruth = GroundTruth(caseId: string, rootCause: Label, required: set<string>, distractors: set<string>)

  datatype FailureClass =
    | CaseIdMismatch | InvalidLabel | ClaimContract | UnknownEvidence
    | DistractorEvidence | WrongRootCause | MissingRequiredEvidence | UnsupportedCriticalClaim

  datatype Score = Score(failure: Option<FailureClass>, coreE2e: bool, top3: bool, unsupported: bool)

  function FailedScore(failure: FailureClass): Score {
    Score(Some(failure), false, false, true)
  }

  predicate TruthValidV3(c: Catalog, truth: GroundTruth) {
    && truth.rootCause in c.causes
    && |truth.required| >= 2
    && truth.required * truth.distractors == {}
    && |truth.required + truth.distractors| == |c.kinds|
  }

  predicate TruthValidV2(c: Catalog, truth: GroundTruth) {
    truth.rootCause in c.causes && truth.required != {} && truth.required * truth.distractors == {}
  }

  predicate LabelsClosed(c: Catalog, d: Diagnosis) {
    d.rootCause in c.causes && d.claimValue in c.causes && forall x | x in d.candidates :: x in c.causes
  }

  predicate InTop3(d: Diagnosis, truth: GroundTruth) {
    d.rootCause == truth.rootCause || exists i | 0 <= i < |d.candidates| && i < 3 :: d.candidates[i] == truth.rootCause
  }

  /** `score_result_v3` on a schema-valid result; an invalid ground truth is an error. */
  function ScoreV3(c: Catalog, d: Diagnosis, truth: GroundTruth): Result<Score> {
    if d.caseId != truth.caseId then Success(FailedScore(CaseIdMismatch))
    else if !TruthValidV3(c, truth) then Failure
    else if !LabelsClosed(c, d) then Success(FailedScore(InvalidLabel))
    else if d.claimValue != d.rootCause then Success(FailedScore(ClaimContract))
    else if d.evidence != d.claimRefs then Success(FailedScore(ClaimContract))
    else if !(d.evidence <= truth.required + truth.distractors) then Success(FailedScore(UnknownEvidence))
    else
      var cited := d.evidence * truth.distractors;
      var complete := truth.required <= d.evidence;
      var supported := d.rootCause == truth.rootCause && complete && cited == {};
      var failure :=
        if cited != {} then Some(DistractorEvidence)
        else if d.rootCause != truth.rootCause then Some(WrongRootCause)
        else if !complete then Some(MissingRequiredEvidence)
        else if !supported then Some(UnsupportedCriticalClaim)
        else None;
      Success(Score(failure, supported, InTop3(d, truth), !supported))
  }

  /** `_score_result_v2` on a schema-valid result. */
  function ScoreV2(c: Catalog, d: Diagnosis, truth: GroundTruth): Result<Score> {
    if !TruthValidV2(c, truth) then Failure
    else if !LabelsClosed(c, d) then Success(FailedScore(InvalidLabel))
    else if d.claimValue != d.rootCause then Success(FailedScore(ClaimContract))
    else if !(d.evidence + d.claimRefs <= truth.required + truth.distractors) then Success(FailedScore(UnknownEvidence))
    else
      var complete := truth.required <= d.evidence;
      var claimSupported := d.rootCause == truth.rootCause && truth.required <= d.claimRefs && d.claimRefs * truth.distractors == {};
      var core := d.rootCause == truth.rootCause && complete && d.evidence * truth.distractors == {} && claimSupported;
      var failure :=
        if d.evidence * truth.distractors != {} || d.claimRefs * truth.distractors != {} then Some(DistractorEvidence)
        else if d.rootCause != truth.rootCause then Some(WrongRootCause)
        else if !complete then Some(MissingRequiredEvidence)
        else if !claimSupported then Some(UnsupportedCriticalClaim)
        else None;
      Success(Score(failure, core, InTop3(d, truth), !claimSupported))
  }

  /** The diagnosis names the root and cites, in both places, exactly the required evidence. */
  ghost predicate Exact(c: Catalog, d: Diagnosis, truth: GroundTruth) {
    && LabelsClosed(c, d) && d.claimValue == d.rootCause
    && d.rootCause == truth.rootCause
    && d.evidence == truth.required && d.claimRefs == truth.required
  }

  /**
   * Under a shared valid ground truth both scorers give core success exactly to the exact
   * diagnoses, v3 only for the right case; and each names no failure exactly on core success.
   */
  lemma {:induction false} ScorersAgree(c: Catalog, d: Diagnosis, truth: GroundTruth)
    requires TruthValidV3(c, truth)
    ensures ScoreV3(c, d, truth).Success? && ScoreV2(c, d, truth).Success?
    ensures ScoreV2(c, d, truth).value.coreE2e <==> Exact(c, d, truth)
    ensures ScoreV3(c, d, truth).value.coreE2e <==> Exact(c, d, truth) && d.caseId == truth.caseId
    ensures ScoreV3(c, d, truth).value.failure == None <==> ScoreV3(c, d, truth).value.coreE2e
    ensures ScoreV2(c, d, truth).value.failure == None <==> ScoreV2(c, d, truth).value.coreE2e
    ensures ScoreV3(c, d, truth).value.coreE2e ==> ScoreV3(c, d, truth).value.top3 && !ScoreV3(c, d, truth).value.unsupported
  {
    WithoutDistractors(d.evidence, truth);
    WithoutDistractors(d.claimRefs, truth);
  }

  /** Evidence inside the universe that covers the required part and avoids distractors is the required part. */
  lemma {:induction false} WithoutDistractors(evidence: set<string>, truth: GroundTruth)
    requires truth.required * truth.distractors == {}
    ensures evidence == truth.required <==>
            evidence <= truth.required + truth.distractors && truth.required <= evidence && evidence * truth.distractors == {}
  {
    if evidence <= truth.required + truth.distractors && truth.required <= evidence && evidence * truth.distractors == {} {
      forall x | x in evidence
        ensures x in truth.required
      {
        assert x !in evidence * truth.distractors;
      }
    }
  }

  // ---------------------------------------------------------------------------------------------
  // The deterministic baseline.

  function EvidenceIds(kinds: set<string>, id: string -> string): set<string> {
    set k | k in kinds :: id(k)
  }

  /** `ground_truth_v3`. */
  function TruthFor(c: Catalog, caseId: string, root: Label, id: string -> string): GroundTruth
    requires ValidCatalog(c) && root in c.causes
  {
    GroundTruth(caseId, root, EvidenceIds(c.requiredKinds[root], id), EvidenceIds(c.kinds - c.requiredKinds[root], id))
  }

  function Names(s: seq<Candidate>, n: nat): seq<Label> {
    seq(if n < |s| then n else |s|, i requires 0 <= i < |s| => s[i].root)
  }

  function Baseline(c: Catalog, t: CaseThresholds, packet: Packet, caseId: string, id: string -> string): Diagnosis
    requires ValidCatalog(c) && Registered(c, t, packet)
  {
    var ranked := Ranked(c, t, packet, |c.causes|);
    var root := if ranked != [] then ranked[0].root else "unknown";
    var kinds := if ranked != [] then c.requiredKinds[ranked[0].root] else c.kinds;
    var evidence := EvidenceIds(kinds, id);
    Diagnosis(caseId, root, if ranked != [] then Names(ranked, 3) else ["unknown"], root, evidence, evidence)
  }

  lemma {:induction false} IdsKeepSize(kinds: set<string>, id: string -> string)
    requires forall a, b | a in kinds && b in kinds && id(a) == id(b) :: a == b
    ensures |EvidenceIds(kinds, id)| == |kinds|
    decreases |kinds|
  {
    if kinds != {} {
      var k := Member(kinds);
      IdsKeepSize(kinds - {k}, id);
      assert EvidenceIds(kinds, id) == EvidenceIds(kinds - {k}, id) + {id(k)};
    }
  }

  lemma {:induction false} TruthIsValid(c: Catalog, caseId: string, root: Label, id: string -> string)
    requires ValidCatalog(c) && root in c.causes
    requires forall a, b | a in c.kinds && b in c.kinds && id(a) == id(b) :: a == b
    ensures TruthValidV3(c, TruthFor(c, caseId, root, id))
  {
    var required := c.requiredKinds[root];
    IdsKeepSize(required, id);
    IdsKeepSize(c.kinds, id);
    assert EvidenceIds(required, id) + EvidenceIds(c.kinds - required, id) == EvidenceIds(c.kinds, id) by {
      assert required + (c.kinds - required) == c.kinds;
    }
  }

  /** `best` qualifies, and every other qualifying label ranks after it. */
  ghost predicate TopRanked(c: Catalog, t: CaseThresholds, packet: Packet, best: Label)
    requires ValidCatalog(c) && Registered(c, t, packet)
  {
    && best in c.causes && Qualifies(c, t, packet, best)
    && forall other | other in c.causes && other != best && Qualifies(c, t, packet, other) ::
         Before(c, Candidate(best, Weakest(c, t, packet, best)), Candidate(other, Weakest(c, t, packet, other)))
  }

  lemma {:induction false} FirstIsTopRanked(c: Catalog, t: CaseThresholds, packet: Packet, root: Label)
    requires ValidCatalog(c) && Registered(c, t, packet)
    ensures TopRanked(c, t, packet, root) <==>
            var ranked := Ranked(c, t, packet, |c.causes|);
            ranked != [] && ranked[0].root == root
  {
    var ranked := Ranked(c, t, packet, |c.causes|);
    RankingIsExact(c, t, packet, |c.causes|);
    assert c.causes[..|c.causes|] == c.causes;
    if ranked != [] {
      assert ranked[0] in ranked;
      forall other | other in c.causes && other != ranked[0].root && Qualifies(c, t, packet, other)
        ensures Before(c, ranked[0], Candidate(other, Weakest(c, t, packet, other)))
      {
        var x := Candidate(other, Weakest(c, t, packet, other));
        assert x in ranked;
        var j :| 0 <= j < |ranked| && ranked[j] == x;
      }
      assert TopRanked(c, t, packet, ranked[0].root);
    }
    if TopRanked(c, t, packet, root) {
      assert Candidate(root, Weakest(c, t, packet, root)) in ranked;
    }
  }

  /** The baseline scores core success exactly when the truth is the top-ranked candidate. */
  lemma {:induction false} BaselineScoresTopRanked(c: Catalog, t: CaseThresholds, packet: Packet, caseId: string, root: Label, id: string -> string)
    requires ValidCatalog(c) && Registered(c, t, packet) && root in c.causes
    requires forall a, b | a in c.kinds && b in c.kinds && id(a) == id(b) :: a == b
    ensures
      var score := ScoreV3(c, Baseline(c, t, packet, caseId, id), TruthFor(c, caseId, root, id));
      score.Success? && (score.value.coreE2e <==> TopRanked(c, t, packet, root))
  {
    var d, truth := Baseline(c, t, packet, caseId, id), TruthFor(c, caseId, root, id);
    TruthIsValid(c, caseId, root, id);
    ScorersAgree(c, d, truth);
    FirstIsTopRanked(c, t, packet, root);
  }
}
