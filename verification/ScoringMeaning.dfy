/**
 * What qualification, the ranking, the scorers and the baseline say in the readings and the evidence
 * themselves.
 */
module ScoringMeaning {
  import opened Prelude
  import opened Thresholds
  import opened Scoring

  // ---------------------------------------------------------------------------------------------
  // Qualification in the readings.

  /** The middle one of five readings: three at or below it, no more than two below. */
  ghost predicate IsMiddle(healthy: seq<real>, m: real) {
    |healthy| == HEALTHY_WINDOWS && m in healthy && AtMost(healthy, 5, m) >= 3 && Below(healthy, 5, m) <= 2
  }

  lemma {:induction false} SmallerIsBelow(values: seq<real>, n: nat, a: real, b: real)
    requires n <= |values| && a < b
    ensures AtMost(values, n, a) <= Below(values, n, b)
    decreases n
  {
    if n > 0 {
      SmallerIsBelow(values, n - 1, a, b);
    }
  }

  lemma {:induction false} MiddleIsMedian(healthy: seq<real>, m: real)
    requires |healthy| == HEALTHY_WINDOWS
    ensures IsMiddle(healthy, m) <==> m == Median(healthy)
  {
    AtRank(healthy, 2);
    if IsMiddle(healthy, m) && m != Median(healthy) {
      SmallerIsBelow(healthy, 5, if m < Median(healthy) then m else Median(healthy), if m < Median(healthy) then Median(healthy) else m);
    }
  }

  /** One of the two fault readings stands at least the cutoff above the middle healthy one. */
  ghost predicate FaultStandsOut(w: Windows, cutoff: real)
    requires |w.healthy| == HEALTHY_WINDOWS && |w.fault| == FAULT_WINDOWS
  {
    exists m, k | IsMiddle(w.healthy, m) && 0 <= k < 2 :: w.fault[k] >= m + cutoff
  }

  lemma {:induction false} ExcessMeans(w: Windows, cutoff: real)
    requires |w.healthy| == HEALTHY_WINDOWS && |w.fault| == FAULT_WINDOWS
    ensures Excess(w) >= cutoff <==> FaultStandsOut(w, cutoff)
  {
    MiddleIsMedian(w.healthy, Median(w.healthy));
    if Excess(w) >= cutoff {
      assert IsMiddle(w.healthy, Median(w.healthy));
      assert w.fault[0] >= Median(w.healthy) + cutoff || w.fault[1] >= Median(w.healthy) + cutoff;
    }
    if m, k :| IsMiddle(w.healthy, m) && 0 <= k < 2 && w.fault[k] >= m + cutoff {
      MiddleIsMedian(w.healthy, m);
    }
  }

  /** A label qualifies exactly if its traces and its root signal both stand out by their cutoffs, ties included. */
  lemma {:induction false} QualifiesMeans(c: Catalog, t: CaseThresholds, packet: Packet, root: Label)
    requires Registered(c, t, packet) && root in c.causes
    ensures Qualifies(c, t, packet, root) <==>
            && FaultStandsOut(packet[(root, TraceActivity)], t[(root, TraceActivity)].0)
            && FaultStandsOut(packet[(root, RootSignal)], t[(root, RootSignal)].0)
  {
    ExcessMeans(packet[(root, TraceActivity)], t[(root, TraceActivity)].0);
    ExcessMeans(packet[(root, RootSignal)], t[(root, RootSignal)].0);
  }

  /** A standardized excess, times the larger of cutoff and quantum, is the margin over the cutoff. */
  lemma {:induction false} StandardizedMeans(excess: real, cutoff: real, quantum: real)
    requires quantum > 0.0
    ensures Standardized(excess, cutoff, quantum) * (if cutoff >= quantum then cutoff else quantum) == excess - cutoff
  {
  }

  /** The score a label is ranked by is the smaller one of its two features'. */
  lemma {:induction false} WeakestMeans(c: Catalog, t: CaseThresholds, packet: Packet, root: Label)
    requires Registered(c, t, packet) && root in c.causes
    ensures forall f: Feature :: Weakest(c, t, packet, root) <= FeatureScore(t, packet, root, f)
    ensures exists f: Feature :: Weakest(c, t, packet, root) == FeatureScore(t, packet, root, f)
  {
    var activity, signal := FeatureScore(t, packet, root, TraceActivity), FeatureScore(t, packet, root, RootSignal);
    forall f: Feature ensures Weakest(c, t, packet, root) <= FeatureScore(t, packet, root, f) {
      assert f == TraceActivity || f == RootSignal;
    }
    assert Weakest(c, t, packet, root) == activity || Weakest(c, t, packet, root) == signal;
  }

  // ---------------------------------------------------------------------------------------------
  // The scorers, answer by answer.

  /** The result can be scored: closed labels, a claim that repeats the diagnosis, and known evidence. */
  ghost predicate Scorable(c: Catalog, d: Diagnosis, truth: GroundTruth) {
    && d.caseId == truth.caseId
    && d.rootCause in c.causes && d.claimValue == d.rootCause && (forall x | x in d.candidates :: x in c.causes)
    && d.claimRefs == d.evidence && forall e | e in d.evidence :: e in truth.required || e in truth.distractors
  }

  ghost predicate CitesDistractor(evidence: set<string>, truth: GroundTruth) {
    exists e | e in evidence :: e in truth.distractors
  }

  ghost predicate MissesRequired(evidence: set<string>, truth: GroundTruth) {
    exists e | e in truth.required :: e !in evidence
  }

  /**
   * v3 under a valid truth: a scorable result fails for the first thing wrong with it, in this order:
   * a cited distractor, the wrong root, a missing required piece; and no other failure is ever named.
   */
  lemma {:induction false} FailureV3Iff(c: Catalog, d: Diagnosis, truth: GroundTruth, score: Score)
    requires TruthValidV3(c, truth) && ScoreV3(c, d, truth) == Success(score)
    ensures score.failure == Some(CaseIdMismatch) <==> d.caseId != truth.caseId
    ensures score.failure in {Some(InvalidLabel), Some(ClaimContract), Some(UnknownEvidence)} <==> d.caseId == truth.caseId && !Scorable(c, d, truth)
    ensures score.failure == Some(InvalidLabel) <==>
            d.caseId == truth.caseId && (d.rootCause !in c.causes || d.claimValue !in c.causes || exists x | x in d.candidates :: x !in c.causes)
    ensures score.failure == Some(DistractorEvidence) <==> Scorable(c, d, truth) && CitesDistractor(d.evidence, truth)
    ensures score.failure == Some(WrongRootCause) <==>
            Scorable(c, d, truth) && !CitesDistractor(d.evidence, truth) && d.rootCause != truth.rootCause
    ensures score.failure == Some(MissingRequiredEvidence) <==>
            && Scorable(c, d, truth) && !CitesDistractor(d.evidence, truth) && d.rootCause == truth.rootCause
            && MissesRequired(d.evidence, truth)
    ensures score.failure != Some(UnsupportedCriticalClaim)
    ensures score.unsupported <==> score.failure != None
  {
    DistractorsCited(d.evidence, truth);
  }

  lemma {:induction false} DistractorsCited(evidence: set<string>, truth: GroundTruth)
    ensures evidence * truth.distractors != {} <==> CitesDistractor(evidence, truth)
    ensures truth.required <= evidence <==> !MissesRequired(evidence, truth)
  {
    if e :| e in evidence && e in truth.distractors {
      assert e in evidence * truth.distractors;
    }
  }

  /** v3 grants the top-3 mark exactly if the result is scorable and names the root first or among its first three candidates. */
  lemma {:induction false} Top3Iff(c: Catalog, d: Diagnosis, truth: GroundTruth, score: Score)
    requires TruthValidV3(c, truth) && ScoreV3(c, d, truth) == Success(score)
    ensures score.top3 <==>
            Scorable(c, d, truth) && truth.rootCause in [d.rootCause] + (if |d.candidates| > 3 then d.candidates[..3] else d.candidates)
  {
    var listed := if |d.candidates| > 3 then d.candidates[..3] else d.candidates;
    if truth.rootCause in listed {
      var i :| 0 <= i < |listed| && listed[i] == truth.rootCause;
      assert d.candidates[i] == truth.rootCause;
    }
    if i :| 0 <= i < |d.candidates| && i < 3 && d.candidates[i] == truth.rootCause {
      assert listed[i] == truth.rootCause;
    }
  }

  /** A v2 result can be scored: as in v3, but for the case, and with evidence and claim checked apart. */
  ghost predicate ScorableV2(c: Catalog, d: Diagnosis, truth: GroundTruth) {
    && d.rootCause in c.causes && d.claimValue == d.rootCause && (forall x | x in d.candidates :: x in c.causes)
    && (forall e | e in d.evidence || e in d.claimRefs :: e in truth.required || e in truth.distractors)
  }

  /** v2 likewise, where evidence and claim are cited separately and the claim alone can lack support. */
  lemma {:induction false} FailureV2Iff(c: Catalog, d: Diagnosis, truth: GroundTruth, score: Score)
    requires TruthValidV2(c, truth) && ScoreV2(c, d, truth) == Success(score)
    ensures score.failure in {Some(InvalidLabel), Some(ClaimContract), Some(UnknownEvidence)} <==> !ScorableV2(c, d, truth)
    ensures
      var distracted := CitesDistractor(d.evidence, truth) || CitesDistractor(d.claimRefs, truth);
      && (score.failure == Some(DistractorEvidence) <==> ScorableV2(c, d, truth) && distracted)
      && (score.failure == Some(WrongRootCause) <==> ScorableV2(c, d, truth) && !distracted && d.rootCause != truth.rootCause)
      && (score.failure == Some(MissingRequiredEvidence) <==>
            ScorableV2(c, d, truth) && !distracted && d.rootCause == truth.rootCause && MissesRequired(d.evidence, truth))
      && (score.failure == Some(UnsupportedCriticalClaim) <==>
            && ScorableV2(c, d, truth) && !distracted && d.rootCause == truth.rootCause
            && !MissesRequired(d.evidence, truth) && MissesRequired(d.claimRefs, truth))
    ensures score.unsupported <==>
            !ScorableV2(c, d, truth) || d.rootCause != truth.rootCause || MissesRequired(d.claimRefs, truth) || CitesDistractor(d.claimRefs, truth)
    ensures score.top3 <==>
            ScorableV2(c, d, truth) && truth.rootCause in [d.rootCause] + (if |d.candidates| > 3 then d.candidates[..3] else d.candidates)
  {
    DistractorsCited(d.evidence, truth);
    DistractorsCited(d.claimRefs, truth);
    var listed := if |d.candidates| > 3 then d.candidates[..3] else d.candidates;
    if truth.rootCause in listed {
      var i :| 0 <= i < |listed| && listed[i] == truth.rootCause;
      assert d.candidates[i] == truth.rootCause;
    }
    if i :| 0 <= i < |d.candidates| && i < 3 && d.candidates[i] == truth.rootCause {
      assert listed[i] == truth.rootCause;
    }
  }

  ghost predicate SharesPiece(truth: GroundTruth) {
    exists e | e in truth.required :: e in truth.distractors
  }

  ghost predicate RequiresTwo(truth: GroundTruth) {
    exists a, b | a in truth.required && b in truth.required :: a != b
  }

  lemma {:induction false} TwoPieces(s: set<string>)
    ensures |s| >= 2 <==> exists a, b | a in s && b in s :: a != b
  {
    if |s| >= 2 {
      var a := Member(s);
      var b := Member(s - {a});
    }
    if a, b :| a in s && b in s && a != b {
      assert s == {a, b} + (s - {a, b});
    }
  }

  /**
   * Which ground truths are errors: v3 demands a known root, two required pieces, none of them a
   * distractor, and as many pieces as there are kinds; v2 a known root and a required piece that, like
   * all of them, is no distractor.
   */
  lemma {:induction false} TruthRefusedIff(c: Catalog, d: Diagnosis, truth: GroundTruth)
    ensures ScoreV3(c, d, truth).Failure? <==>
            && d.caseId == truth.caseId
            && !(truth.rootCause in c.causes && RequiresTwo(truth) && !SharesPiece(truth) && |truth.required + truth.distractors| == |c.kinds|)
    ensures ScoreV2(c, d, truth).Failure? <==> !(truth.rootCause in c.causes && truth.required != {} && !SharesPiece(truth))
  {
    TwoPieces(truth.required);
    if e :| e in truth.required && e in truth.distractors {
      assert e in truth.required * truth.distractors;
    }
  }

  // ---------------------------------------------------------------------------------------------
  // What the baseline lists.

  /** The qualifying labels with a higher weakest excess, or an equal one and a lexically earlier name. */
  ghost function Better(c: Catalog, t: CaseThresholds, packet: Packet, root: Label): set<Label>
    requires ValidCatalog(c) && Registered(c, t, packet) && root in c.causes
  {
    set other | other in c.causes && Qualifies(c, t, packet, other)
      && (Weakest(c, t, packet, other) > Weakest(c, t, packet, root)
          || (Weakest(c, t, packet, other) == Weakest(c, t, packet, root) && c.order[other] < c.order[root]))
  }

  ghost function RootsOf(s: seq<Candidate>): (roots: seq<Label>)
    ensures |roots| == |s| && forall i | 0 <= i < |s| :: roots[i] == s[i].root
  {
    seq(|s|, i requires 0 <= i < |s| => s[i].root)
  }

  /** A ranking names no label twice. */
  lemma {:induction false} RootsDiffer(c: Catalog, t: CaseThresholds, packet: Packet, n: nat, s: seq<Candidate>)
    requires RanksExactly(c, t, packet, n, s)
    ensures Distinct(RootsOf(s))
  {
    forall i, j | 0 <= i < j < |s| ensures s[i].root != s[j].root {
      assert s[i] in s && s[j] in s;
      assert Before(c, s[i], s[j]);
    }
  }

  lemma {:induction false} EarlierIsBetter(c: Catalog, t: CaseThresholds, packet: Packet, s: seq<Candidate>, i: nat, k: nat)
    requires RanksExactly(c, t, packet, |c.causes|, s) && i < k < |s| && s[k].root in c.causes
    ensures s[i].root in Better(c, t, packet, s[k].root)
  {
    assert s[i] in s && s[k] in s;
    assert Before(c, s[i], s[k]);
  }

  lemma {:induction false} BetterIsEarlier(c: Catalog, t: CaseThresholds, packet: Packet, s: seq<Candidate>, k: nat, other: Label) returns (i: nat)
    requires RanksExactly(c, t, packet, |c.causes|, s) && k < |s| && s[k].root in c.causes
    requires other in Better(c, t, packet, s[k].root)
    ensures i < k && s[i].root == other
  {
    assert c.causes[..|c.causes|] == c.causes;
    assert s[k] in s;
    var x := Candidate(other, Weakest(c, t, packet, other));
    assert x in s;
    i :| 0 <= i < |s| && s[i] == x;
    assert Before(c, x, s[k]);
  }

  /** The place of a label in the ranking is the number of qualifying labels before it. */
  lemma {:induction false} PlaceCountsBetter(c: Catalog, t: CaseThresholds, packet: Packet, s: seq<Candidate>, k: nat)
    requires RanksExactly(c, t, packet, |c.causes|, s) && k < |s|
    ensures s[k] in s && s[k].root in c.causes && |Better(c, t, packet, s[k].root)| == k
  {
    assert s[k] in s;
    var before, better := RootsOf(s)[..k], Better(c, t, packet, s[k].root);
    RootsDiffer(c, t, packet, |c.causes|, s);
    CountDistinct(before);
    forall other
      ensures other in before <==> other in better
    {
      if other in before {
        var i :| 0 <= i < k && before[i] == other;
        EarlierIsBetter(c, t, packet, s, i, k);
      }
      if other in better {
        var i := BetterIsEarlier(c, t, packet, s, k, other);
        assert before[i] == other;
      }
    }
    assert Elements(before) == better;
  }

  /** The baseline's names are the first three of the ranking, in its order. */
  lemma {:induction false} NamedIff(c: Catalog, t: CaseThresholds, packet: Packet, root: Label)
    requires ValidCatalog(c) && Registered(c, t, packet) && root in c.causes
    ensures root in Names(Ranked(c, t, packet, |c.causes|), 3) <==>
            Qualifies(c, t, packet, root) && |Better(c, t, packet, root)| < 3
  {
    var s := Ranked(c, t, packet, |c.causes|);
    var names := Names(s, 3);
    RankingIsExact(c, t, packet, |c.causes|);
    assert c.causes[..|c.causes|] == c.causes;
    if root in names {
      var k :| 0 <= k < |names| && names[k] == root;
      PlaceCountsBetter(c, t, packet, s, k);
    }
    if Qualifies(c, t, packet, root) && |Better(c, t, packet, root)| < 3 {
      assert Candidate(root, Weakest(c, t, packet, root)) in s;
      var k :| 0 <= k < |s| && s[k] == Candidate(root, Weakest(c, t, packet, root));
      PlaceCountsBetter(c, t, packet, s, k);
      assert names[k] == root;
    }
  }

  /**
   * The baseline names the qualifying label with none better and cites its required kinds; where no
   * label qualifies it answers "unknown" and cites everything.
   */
  lemma {:induction false} BaselineAnswers(c: Catalog, t: CaseThresholds, packet: Packet, caseId: string, id: string -> string)
    requires ValidCatalog(c) && Registered(c, t, packet)
    ensures
      var d := Baseline(c, t, packet, caseId, id);
      && d.caseId == caseId && d.claimValue == d.rootCause && d.claimRefs == d.evidence
      && (d.rootCause in c.causes ==>
            && Qualifies(c, t, packet, d.rootCause) && Better(c, t, packet, d.rootCause) == {}
            && d.evidence == set k | k in c.requiredKinds[d.rootCause] :: id(k))
      && (d.rootCause !in c.causes ==>
            && (forall root | root in c.causes :: !Qualifies(c, t, packet, root))
            && d.rootCause == "unknown" && d.candidates == ["unknown"] && d.evidence == set k | k in c.kinds :: id(k))
  {
    var s := Ranked(c, t, packet, |c.causes|);
    RankingIsExact(c, t, packet, |c.causes|);
    assert c.causes[..|c.causes|] == c.causes;
    if s != [] {
      assert s[0] in s;
      FirstIsTopRanked(c, t, packet, s[0].root);
      TopHasNoBetter(c, t, packet, s[0].root);
    } else {
      forall root | root in c.causes ensures !Qualifies(c, t, packet, root) {
        assert Candidate(root, Weakest(c, t, packet, root)) !in s;
      }
    }
  }

  /** Its candidates are in the order of the ranking: each has as many better labels as stand before it. */
  lemma {:induction false} CandidatesAreRanked(c: Catalog, t: CaseThresholds, packet: Packet, caseId: string, id: string -> string, i: nat)
    requires ValidCatalog(c) && Registered(c, t, packet)
    requires Baseline(c, t, packet, caseId, id).rootCause in c.causes && i < |Baseline(c, t, packet, caseId, id).candidates|
    ensures
      var root := Baseline(c, t, packet, caseId, id).candidates[i];
      i < 3 && root in c.causes && Qualifies(c, t, packet, root) && |Better(c, t, packet, root)| == i
  {
    var s := Ranked(c, t, packet, |c.causes|);
    RankingIsExact(c, t, packet, |c.causes|);
    PlaceCountsBetter(c, t, packet, s, i);
  }

  /** The evidence of any known kinds is split between what a truth requires and what distracts from it. */
  lemma {:induction false} BaselineIsScorable(c: Catalog, t: CaseThresholds, packet: Packet, caseId: string, root: Label, id: string -> string)
    requires ValidCatalog(c) && Registered(c, t, packet) && root in c.causes
    ensures Scorable(c, Baseline(c, t, packet, caseId, id), TruthFor(c, caseId, root, id)) <==> Ranked(c, t, packet, |c.causes|) != []
  {
    var s, d := Ranked(c, t, packet, |c.causes|), Baseline(c, t, packet, caseId, id);
    RankingIsExact(c, t, packet, |c.causes|);
    if s != [] {
      forall x | x in d.candidates ensures x in c.causes {
        var k :| 0 <= k < |d.candidates| && d.candidates[k] == x;
        assert s[k] in s;
      }
    }
  }

  /** The top-ranked label is the qualifying one with none better. */
  lemma {:induction false} TopHasNoBetter(c: Catalog, t: CaseThresholds, packet: Packet, root: Label)
    requires ValidCatalog(c) && Registered(c, t, packet) && root in c.causes
    ensures TopRanked(c, t, packet, root) <==> Qualifies(c, t, packet, root) && Better(c, t, packet, root) == {}
  {
    var own := Candidate(root, Weakest(c, t, packet, root));
    if TopRanked(c, t, packet, root) {
      forall other ensures other !in Better(c, t, packet, root) {
        assert other in c.causes && other != root && Qualifies(c, t, packet, other) ==>
            Before(c, own, Candidate(other, Weakest(c, t, packet, other)));
      }
    }
    if Qualifies(c, t, packet, root) && Better(c, t, packet, root) == {} {
      forall other | other in c.causes && other != root && Qualifies(c, t, packet, other)
        ensures Before(c, own, Candidate(other, Weakest(c, t, packet, other)))
      {
        assert other !in Better(c, t, packet, root);
      }
    }
  }

  /**
   * The baseline earns the top-3 mark exactly on a truth that qualifies with fewer than three better
   * labels, and core success with none.
   */
  lemma {:induction false} BaselineScoresBestIff(c: Catalog, t: CaseThresholds, packet: Packet, caseId: string, root: Label, id: string -> string)
    requires ValidCatalog(c) && Registered(c, t, packet) && root in c.causes
    requires forall a, b | a in c.kinds && b in c.kinds && id(a) == id(b) :: a == b
    ensures
      var score := ScoreV3(c, Baseline(c, t, packet, caseId, id), TruthFor(c, caseId, root, id));
      && score.Success?
      && (score.value.top3 <==> Qualifies(c, t, packet, root) && |Better(c, t, packet, root)| < 3)
      && (score.value.coreE2e <==> Qualifies(c, t, packet, root) && Better(c, t, packet, root) == {})
  {
    var s, d, truth := Ranked(c, t, packet, |c.causes|), Baseline(c, t, packet, caseId, id), TruthFor(c, caseId, root, id);
    TruthIsValid(c, caseId, root, id);
    BaselineScoresTopRanked(c, t, packet, caseId, root, id);
    TopHasNoBetter(c, t, packet, root);
    Top3Iff(c, d, truth, ScoreV3(c, d, truth).value);
    BaselineIsScorable(c, t, packet, caseId, root, id);
    NamedIff(c, t, packet, root);
    if s != [] {
      assert d.candidates == Names(s, 3) && d.rootCause == Names(s, 3)[0];
    }
  }
}
