/**
 * The presence-only probe of `g03_readiness.py`: a majority prior over the signature of non-empty
 * evidence groups. Its scores are the best that any classifier reading only the signature can reach.
 */
module Presence {
  import opened Prelude

  type Cause = string
  type Signature = set<string>

  datatype Observed = Observed(signature: Signature, cause: Cause)

  /** How many of the first `n` cases show this signature with this cause. */
  function Count(cases: seq<Observed>, n: nat, sig: Signature, cause: Cause): nat
    requires n <= |cases|
  {
    if n == 0 then 0 else Count(cases, n - 1, sig, cause) + if cases[n - 1] == Observed(sig, cause) then 1 else 0
  }

  /** The signatures of the first `n` cases, each where it was first seen. */
  function Signatures(cases: seq<Observed>, n: nat): seq<Signature>
    requires n <= |cases|
  {
    if n == 0 then [] else
      var before := Signatures(cases, n - 1);
      if cases[n - 1].signature in before then before else before + [cases[n - 1].signature]
  }

  datatype Tally = Tally(cause: Cause, count: nat)

  /** Insertion by descending count. */
  function Place(x: Tally, s: seq<Tally>): seq<Tally> {
    if s == [] then [x] else if x.count > s[0].count then [x] + s else [s[0]] + Place(x, s[1..])
  }

  /** The causes seen with a signature, by descending count, among the first `m` registered causes. */
  function Ranking(causes: seq<Cause>, m: nat, cases: seq<Observed>, sig: Signature): seq<Tally>
    requires m <= |causes|
  {
    if m == 0 then [] else
      var before := Ranking(causes, m - 1, cases, sig);
      var count := Count(cases, |cases|, sig, causes[m - 1]);
      if count > 0 then Place(Tally(causes[m - 1], count), before) else before
  }

  /** The counts of the first `k` entries together. */
  function TopSum(s: seq<Tally>, k: nat): nat {
    if s == [] || k == 0 then 0 else s[0].count + TopSum(s[1..], k - 1)
  }

  /** The sum over the first `m` signatures of a list. */
  function SumOf(order: seq<Signature>, m: nat, value: Signature -> nat): nat
    requires m <= |order|
  {
    if m == 0 then 0 else SumOf(order, m - 1, value) + value(order[m - 1])
  }

  /** What one signature contributes to `top1` or `top3`. */
  function TopOf(causes: seq<Cause>, cases: seq<Observed>, k: nat): Signature -> nat {
    sig => TopSum(Ranking(causes, |causes|, cases, sig), k)
  }

  /** `top1` and `top3` of the probe, over the first `m` signatures. */
  function ProbeScore(causes: seq<Cause>, cases: seq<Observed>, k: nat, order: seq<Signature>, m: nat): nat
    requires m <= |order|
  {
    SumOf(order, m, TopOf(causes, cases, k))
  }

  function Probe(causes: seq<Cause>, cases: seq<Observed>, k: nat): nat {
    var order := Signatures(cases, |cases|);
    ProbeScore(causes, cases, k, order, |order|)
  }

  // ---------------------------------------------------------------------------------------------
  // Tallying in place.

  /** The counter of each signature after the first `n` cases. */
  ghost predicate TalliedUpTo(cases: seq<Observed>, n: nat, order: seq<Signature>, table: map<Signature, map<Cause, nat>>)
    requires n <= |cases|
  {
    && order == Signatures(cases, n)
    && (forall sig: Signature, cause: Cause :: TallyOf(table, sig, cause) == Count(cases, n, sig, cause))
    && (forall sig: Signature :: sig in table <==> sig in order)
  }

  function TallyOf(table: map<Signature, map<Cause, nat>>, sig: Signature, cause: Cause): nat {
    if sig in table && cause in table[sig] then table[sig][cause] else 0
  }

  /** The tally loop: `setdefault(signature, Counter()).update([cause])`. */
  method TallyCases(cases: seq<Observed>) returns (order: seq<Signature>, table: map<Signature, map<Cause, nat>>)
    ensures TalliedUpTo(cases, |cases|, order, table)
  {
    order, table := [], map[];
    for n := 0 to |cases|
      invariant TalliedUpTo(cases, n, order, table)
    {
      var row := cases[n];
      ghost var before := table;
      var counter: map<Cause, nat> := if row.signature in table then table[row.signature] else map[];
      var count := if row.cause in counter then counter[row.cause] else 0;
      if row.signature !in table {
        order := order + [row.signature];
      }
      table := table[row.signature := counter[row.cause := count + 1]];
      forall sig: Signature, cause: Cause
        ensures TallyOf(table, sig, cause) == Count(cases, n + 1, sig, cause)
      {
        assert TallyOf(before, sig, cause) == Count(cases, n, sig, cause);
      }
    }
  }

  /** The ranking of one counter. */
  function RankCounter(causes: seq<Cause>, m: nat, counter: map<Cause, nat>): seq<Tally>
    requires m <= |causes|
  {
    if m == 0 then [] else
      var before := RankCounter(causes, m - 1, counter);
      var count := if causes[m - 1] in counter then counter[causes[m - 1]] else 0;
      if count > 0 then Place(Tally(causes[m - 1], count), before) else before
  }

  lemma {:induction false} CounterRanksCases(causes: seq<Cause>, m: nat, cases: seq<Observed>, sig: Signature, table: map<Signature, map<Cause, nat>>)
    requires m <= |causes| && sig in table
    requires forall cause: Cause :: TallyOf(table, sig, cause) == Count(cases, |cases|, sig, cause)
    ensures RankCounter(causes, m, table[sig]) == Ranking(causes, m, cases, sig)
    decreases m
  {
    if m > 0 {
      CounterRanksCases(causes, m - 1, cases, sig, table);
      assert TallyOf(table, sig, causes[m - 1]) == Count(cases, |cases|, sig, causes[m - 1]);
    }
  }

  /** The table holds the counter of this signature. */
  ghost predicate RowCounts(cases: seq<Observed>, sig: Signature, table: map<Signature, map<Cause, nat>>) {
    sig in table && forall cause: Cause :: TallyOf(table, sig, cause) == Count(cases, |cases|, sig, cause)
  }

  /** The loop body for one signature: its ranking, and the counts of the first entries. */
  method ScoreSignature(causes: seq<Cause>, cases: seq<Observed>, short: nat, long: nat, sig: Signature, table: map<Signature, map<Cause, nat>>)
    returns (first: nat, second: nat)
    requires RowCounts(cases, sig, table)
    ensures first == TopOf(causes, cases, short)(sig) && second == TopOf(causes, cases, long)(sig)
  {
    CounterRanksCases(causes, |causes|, cases, sig, table);
    var ranking := RankCounter(causes, |causes|, table[sig]);
    first, second := TopSum(ranking, short), TopSum(ranking, long);
  }

  /** The loop over the signatures, in the order in which they were first seen, for two lengths of answers. */
  method ScoreSignatures(causes: seq<Cause>, cases: seq<Observed>, short: nat, long: nat, order: seq<Signature>,
                         table: map<Signature, map<Cause, nat>>)
    returns (first: nat, second: nat)
    requires forall i | 0 <= i < |order| :: RowCounts(cases, order[i], table)
    ensures first == ProbeScore(causes, cases, short, order, |order|)
    ensures second == ProbeScore(causes, cases, long, order, |order|)
  {
    first, second := 0, 0;
    for m := 0 to |order|
      invariant first == ProbeScore(causes, cases, short, order, m)
      invariant second == ProbeScore(causes, cases, long, order, m)
    {
      var a, b := ScoreSignature(causes, cases, short, long, order[m], table);
      first, second := first + a, second + b;
    }
  }

  method PresenceOnlyProbe(causes: seq<Cause>, cases: seq<Observed>) returns (top1: nat, top3: nat)
    ensures top1 == Probe(causes, cases, 1) && top3 == Probe(causes, cases, 3)
  {
    var order, table := TallyCases(cases);
    forall i | 0 <= i < |order| ensures RowCounts(cases, order[i], table) {
      assert order[i] in order;
    }
    top1, top3 := ScoreSignatures(causes, cases, 1, 3, order, table);
  }

  // ---------------------------------------------------------------------------------------------
  // Classifiers that read the signature.

  /** Names at most `k` causes per signature. */
  ghost predicate NamesAtMost(f: Signature -> set<Cause>, k: nat) {
    forall sig :: |f(sig)| <= k
  }

  /** The cases among the first `n` whose cause the classifier names. */
  function Correct(cases: seq<Observed>, n: nat, f: Signature -> set<Cause>): nat
    requires n <= |cases|
  {
    if n == 0 then 0 else
      Correct(cases, n - 1, f) + if cases[n - 1].cause in f(cases[n - 1].signature) then 1 else 0
  }

  /** The cases among the first `n` with this signature and a cause named in `s`. */
  ghost function Named(causes: seq<Cause>, m: nat, cases: seq<Observed>, n: nat, sig: Signature, s: set<Cause>): nat
    requires m <= |causes| && n <= |cases|
  {
    if m == 0 then 0 else
      Named(causes, m - 1, cases, n, sig, s) + if causes[m - 1] in s then Count(cases, n, sig, causes[m - 1]) else 0
  }

  ghost function NamedBy(causes: seq<Cause>, cases: seq<Observed>, n: nat, f: Signature -> set<Cause>): Signature -> nat
    requires n <= |cases|
  {
    sig => Named(causes, |causes|, cases, n, sig, f(sig))
  }

  ghost function NamedOver(causes: seq<Cause>, cases: seq<Observed>, n: nat, f: Signature -> set<Cause>, order: seq<Signature>, m: nat): nat
    requires n <= |cases| && m <= |order|
  {
    SumOf(order, m, NamedBy(causes, cases, n, f))
  }

  lemma {:induction false} SumsInOrder(order: seq<Signature>, m: nat, f: Signature -> nat, g: Signature -> nat)
    requires m <= |order| && forall i | 0 <= i < |order| :: f(order[i]) <= g(order[i])
    ensures SumOf(order, m, f) <= SumOf(order, m, g)
    decreases m
  {
    if m > 0 {
      SumsInOrder(order, m - 1, f, g);
    }
  }

  /** What one signature gains, the sum gains if it is listed. */
  lemma {:induction false} SumGains(order: seq<Signature>, m: nat, f: Signature -> nat, g: Signature -> nat, sig: Signature, gain: nat)
    requires m <= |order| && Distinct(order)
    requires forall i | 0 <= i < |order| :: g(order[i]) == f(order[i]) + if order[i] == sig then gain else 0
    ensures SumOf(order, m, g) == SumOf(order, m, f) + if sig in order[..m] then gain else 0
    decreases m
  {
    if m > 0 {
      SumGains(order, m - 1, f, g, sig, gain);
      assert order[..m] == order[..m - 1] + [order[m - 1]];
      assert order[m - 1] !in order[..m - 1];
    }
  }

  lemma {:induction false} NamedStep(causes: seq<Cause>, m: nat, cases: seq<Observed>, n: nat, sig: Signature, s: set<Cause>)
    requires m <= |causes| && n < |cases| && Distinct(causes)
    ensures Named(causes, m, cases, n + 1, sig, s)
         == Named(causes, m, cases, n, sig, s)
            + if cases[n].signature == sig && cases[n].cause in s && cases[n].cause in causes[..m] then 1 else 0
    decreases m
  {
    if m > 0 {
      NamedStep(causes, m - 1, cases, n, sig, s);
      assert causes[..m] == causes[..m - 1] + [causes[m - 1]];
      assert causes[m - 1] !in causes[..m - 1];
    }
  }

  lemma {:induction false} NamedOverStep(causes: seq<Cause>, cases: seq<Observed>, n: nat, f: Signature -> set<Cause>, order: seq<Signature>)
    requires n < |cases| && Distinct(causes) && Distinct(order) && cases[n].cause in causes && cases[n].signature in order
    ensures NamedOver(causes, cases, n + 1, f, order, |order|)
         == NamedOver(causes, cases, n, f, order, |order|) + if cases[n].cause in f(cases[n].signature) then 1 else 0
  {
    var sig, gain := cases[n].signature, if cases[n].cause in f(cases[n].signature) then 1 else 0;
    var before, after := NamedBy(causes, cases, n, f), NamedBy(causes, cases, n + 1, f);
    forall i | 0 <= i < |order|
      ensures after(order[i]) == before(order[i]) + if order[i] == sig then gain else 0
    {
      NamedStep(causes, |causes|, cases, n, order[i], f(order[i]));
      assert causes[..|causes|] == causes;
    }
    SumGains(order, |order|, before, after, sig, gain);
    assert order[..|order|] == order;
  }

  lemma {:induction false} NothingNamed(causes: seq<Cause>, m: nat, cases: seq<Observed>, sig: Signature, s: set<Cause>)
    requires m <= |causes|
    ensures Named(causes, m, cases, 0, sig, s) == 0
    decreases m
  {
    if m > 0 {
      NothingNamed(causes, m - 1, cases, sig, s);
    }
  }

  lemma {:induction false} NothingNamedOver(causes: seq<Cause>, cases: seq<Observed>, f: Signature -> set<Cause>, order: seq<Signature>, m: nat)
    requires m <= |order|
    ensures NamedOver(causes, cases, 0, f, order, m) == 0
    decreases m
  {
    if m > 0 {
      NothingNamedOver(causes, cases, f, order, m - 1);
      NothingNamed(causes, |causes|, cases, order[m - 1], f(order[m - 1]));
    }
  }

  /** Every case has a registered cause and a listed signature. */
  ghost predicate Covered(causes: seq<Cause>, cases: seq<Observed>, order: seq<Signature>) {
    forall i | 0 <= i < |cases| :: cases[i].cause in causes && cases[i].signature in order
  }

  lemma {:induction false} CorrectStep(causes: seq<Cause>, cases: seq<Observed>, n: nat, f: Signature -> set<Cause>, order: seq<Signature>,
                                       before: nat, after: nat)
    requires n < |cases| && Distinct(causes) && Distinct(order) && Covered(causes, cases, order)
    requires before == NamedOver(causes, cases, n, f, order, |order|) && after == NamedOver(causes, cases, n + 1, f, order, |order|)
    ensures after - before == Correct(cases, n + 1, f) - Correct(cases, n, f)
  {
    NamedOverStep(causes, cases, n, f, order);
  }

  /** Counting correct cases one by one, or signature by signature and cause by cause, is the same. */
  ghost predicate NamedIsCorrect(causes: seq<Cause>, cases: seq<Observed>, f: Signature -> set<Cause>, order: seq<Signature>, n: nat) {
    n <= |cases| && Correct(cases, n, f) == NamedOver(causes, cases, n, f, order, |order|)
  }

  lemma {:induction false} CorrectIsNamed(causes: seq<Cause>, cases: seq<Observed>, n: nat, f: Signature -> set<Cause>, order: seq<Signature>)
    requires n <= |cases| && Distinct(causes) && Distinct(order) && Covered(causes, cases, order)
    ensures NamedIsCorrect(causes, cases, f, order, n)
  {
    NothingNamedOver(causes, cases, f, order, |order|);
    assert NamedIsCorrect(causes, cases, f, order, 0);
    forall k: nat | k < n && NamedIsCorrect(causes, cases, f, order, k) ensures NamedIsCorrect(causes, cases, f, order, k + 1) {
      CorrectStep(causes, cases, k, f, order, NamedOver(causes, cases, k, f, order, |order|), NamedOver(causes, cases, k + 1, f, order, |order|));
    }
    Induction(n, (k: nat) => NamedIsCorrect(causes, cases, f, order, k));
  }

  lemma {:induction false} SignaturesCover(cases: seq<Observed>, n: nat)
    requires n <= |cases|
    ensures Distinct(Signatures(cases, n))
    ensures forall i | 0 <= i < n :: cases[i].signature in Signatures(cases, n)
    ensures forall sig | sig in Signatures(cases, n) :: exists i | 0 <= i < n :: cases[i].signature == sig
    decreases n
  {
    if n > 0 {
      SignaturesCover(cases, n - 1);
    }
  }

  // ---------------------------------------------------------------------------------------------
  // The best choice per signature.

  ghost predicate Descending(s: seq<Tally>) {
    forall i, j | 0 <= i <= j < |s| :: s[i].count >= s[j].count
  }

  /** The counts of the entries named in `chosen`. */
  function Chosen(s: seq<Tally>, chosen: set<Cause>): nat {
    if s == [] then 0 else (if s[0].cause in chosen then s[0].count else 0) + Chosen(s[1..], chosen)
  }

  function FirstCauses(s: seq<Tally>, k: nat): set<Cause> {
    if s == [] || k == 0 then {} else {s[0].cause} + FirstCauses(s[1..], k - 1)
  }

  ghost predicate NoCauseTwice(s: seq<Tally>) {
    forall i, j | 0 <= i < j < |s| :: s[i].cause != s[j].cause
  }

  lemma {:induction false} PlaceMembers(x: Tally, s: seq<Tally>)
    ensures forall y :: y in Place(x, s) <==> y == x || y in s
    decreases |s|
  {
    if s != [] && x.count <= s[0].count {
      PlaceMembers(x, s[1..]);
      assert s == [s[0]] + s[1..];
    }
  }

  lemma {:induction false} PlaceChosen(x: Tally, s: seq<Tally>, chosen: set<Cause>)
    ensures Chosen(Place(x, s), chosen) == Chosen(s, chosen) + if x.cause in chosen then x.count else 0
    decreases |s|
  {
    if s == [] || x.count > s[0].count {
      assert ([x] + s)[1..] == s;
    } else {
      PlaceChosen(x, s[1..], chosen);
      assert ([s[0]] + Place(x, s[1..]))[1..] == Place(x, s[1..]);
    }
  }

  lemma {:induction false} PlaceOrders(x: Tally, s: seq<Tally>)
    requires Descending(s) && NoCauseTwice(s) && forall i | 0 <= i < |s| :: s[i].cause != x.cause
    ensures Descending(Place(x, s)) && NoCauseTwice(Place(x, s))
    decreases |s|
  {
    if s != [] && x.count <= s[0].count {
      var rest := s[1..];
      PlaceOrders(x, rest);
      PlaceMembers(x, rest);
      var placed := Place(x, rest);
      forall j | 0 <= j < |placed|
        ensures s[0].count >= placed[j].count && s[0].cause != placed[j].cause
      {
        assert placed[j] in placed;
        if placed[j] != x {
          var k :| 0 <= k < |rest| && rest[k] == placed[j];
          assert s[k + 1] == rest[k];
        }
      }
    }
  }

  lemma {:induction false} PlaceKeeps(x: Tally, s: seq<Tally>, chosen: set<Cause>)
    requires Descending(s) && NoCauseTwice(s) && forall i | 0 <= i < |s| :: s[i].cause != x.cause
    ensures Descending(Place(x, s)) && NoCauseTwice(Place(x, s))
    ensures forall y :: y in Place(x, s) <==> y == x || y in s
    ensures Chosen(Place(x, s), chosen) == Chosen(s, chosen) + if x.cause in chosen then x.count else 0
  {
    PlaceMembers(x, s);
    PlaceChosen(x, s, chosen);
    PlaceOrders(x, s);
  }

  /** What a ranking of the first `m` causes is. */
  ghost predicate Ranks(causes: seq<Cause>, m: nat, cases: seq<Observed>, sig: Signature, chosen: set<Cause>, s: seq<Tally>) {
    && m <= |causes|
    && Descending(s) && NoCauseTwice(s)
    && (forall y | y in s :: y.cause in causes[..m])
    && Chosen(s, chosen) == Named(causes, m, cases, |cases|, sig, chosen)
  }

  lemma {:induction false} RanksOneMore(causes: seq<Cause>, m: nat, cases: seq<Observed>, sig: Signature, chosen: set<Cause>, before: seq<Tally>)
    requires m < |causes| && Distinct(causes) && Ranks(causes, m, cases, sig, chosen, before)
    ensures
      var count := Count(cases, |cases|, sig, causes[m]);
      Ranks(causes, m + 1, cases, sig, chosen, if count > 0 then Place(Tally(causes[m], count), before) else before)
  {
    assert causes[..m + 1] == causes[..m] + [causes[m]];
    forall i | 0 <= i < |before|
      ensures before[i].cause != causes[m]
    {
      assert before[i] in before;
      assert causes[m] !in causes[..m];
    }
    PlaceKeeps(Tally(causes[m], Count(cases, |cases|, sig, causes[m])), before, chosen);
  }

  lemma {:induction false} RankingKeeps(causes: seq<Cause>, m: nat, cases: seq<Observed>, sig: Signature, chosen: set<Cause>)
    requires m <= |causes| && Distinct(causes)
    ensures Ranks(causes, m, cases, sig, chosen, Ranking(causes, m, cases, sig))
  {
    forall k: nat | k < m && Ranks(causes, k, cases, sig, chosen, if k <= |causes| then Ranking(causes, k, cases, sig) else [])
      ensures Ranks(causes, k + 1, cases, sig, chosen, Ranking(causes, k + 1, cases, sig))
    {
      RanksOneMore(causes, k, cases, sig, chosen, Ranking(causes, k, cases, sig));
    }
    Induction(m, (k: nat) => k <= |causes| && Ranks(causes, k, cases, sig, chosen, Ranking(causes, k, cases, sig)));
  }

  lemma {:induction false} TopSumShift(s: seq<Tally>, k: nat, bound: nat)
    requires forall i | 0 <= i < |s| :: s[i].count <= bound
    ensures TopSum(s, k + 1) <= bound + TopSum(s, k)
    decreases |s|
  {
    if s != [] && k > 0 {
      TopSumShift(s[1..], k - 1, bound);
    }
  }

  /** No choice of at most `k` causes collects more than the first `k` entries of a descending list. */
  lemma {:induction false} TopSumIsBest(s: seq<Tally>, k: nat, chosen: set<Cause>)
    requires Descending(s) && NoCauseTwice(s) && |chosen| <= k
    ensures Chosen(s, chosen) <= TopSum(s, k)
    decreases |s|
  {
    if s != [] {
      var rest := s[1..];
      if s[0].cause in chosen {
        TopSumIsBest(rest, k - 1, chosen - {s[0].cause});
        ChosenIgnores(rest, chosen, s[0].cause);
      } else {
        TopSumIsBest(rest, k, chosen);
        if k > 0 {
          TopSumShift(rest, k - 1, s[0].count);
        } else {
          NothingChosen(rest, chosen);
        }
      }
    }
  }

  lemma {:induction false} NothingChosen(s: seq<Tally>, chosen: set<Cause>)
    requires chosen == {}
    ensures Chosen(s, chosen) == 0
    decreases |s|
  {
    if s != [] {
      NothingChosen(s[1..], chosen);
    }
  }

  lemma {:induction false} ChosenIgnores(s: seq<Tally>, chosen: set<Cause>, cause: Cause)
    requires forall i | 0 <= i < |s| :: s[i].cause != cause
    ensures Chosen(s, chosen - {cause}) == Chosen(s, chosen) == Chosen(s, chosen + {cause})
    decreases |s|
  {
    if s != [] {
      ChosenIgnores(s[1..], chosen, cause);
    }
  }

  lemma {:induction false} FirstCausesReach(s: seq<Tally>, k: nat)
    requires NoCauseTwice(s)
    ensures Chosen(s, FirstCauses(s, k)) == TopSum(s, k) && |FirstCauses(s, k)| <= k
    decreases |s|
  {
    if s == [] {
    } else if k == 0 {
      NothingChosen(s, {});
    } else {
      FirstCausesReach(s[1..], k - 1);
      ChosenIgnores(s[1..], FirstCauses(s[1..], k - 1), s[0].cause);
      assert FirstCauses(s[1..], k - 1) + {s[0].cause} == FirstCauses(s, k);
    }
  }

  lemma {:induction false} NamedAtMostTop(causes: seq<Cause>, cases: seq<Observed>, s: set<Cause>, k: nat, sig: Signature)
    requires Distinct(causes) && |s| <= k
    ensures Named(causes, |causes|, cases, |cases|, sig, s) <= TopSum(Ranking(causes, |causes|, cases, sig), k)
  {
    RankingKeeps(causes, |causes|, cases, sig, s);
    TopSumIsBest(Ranking(causes, |causes|, cases, sig), k, s);
  }

  lemma {:induction false} NamedAtMostProbe(causes: seq<Cause>, cases: seq<Observed>, f: Signature -> set<Cause>, k: nat, order: seq<Signature>)
    requires Distinct(causes) && NamesAtMost(f, k)
    ensures NamedOver(causes, cases, |cases|, f, order, |order|) <= ProbeScore(causes, cases, k, order, |order|)
  {
    var named, top := NamedBy(causes, cases, |cases|, f), TopOf(causes, cases, k);
    forall i | 0 <= i < |order| ensures named(order[i]) <= top(order[i]) {
      NamedAtMostTop(causes, cases, f(order[i]), k, order[i]);
    }
    SumsInOrder(order, |order|, named, top);
  }

  /** The classifier that names the `k` most frequent causes of each signature. */
  function MajorityPrior(causes: seq<Cause>, cases: seq<Observed>, k: nat): Signature -> set<Cause> {
    sig => FirstCauses(Ranking(causes, |causes|, cases, sig), k)
  }

  lemma {:induction false} PriorReachesTop(causes: seq<Cause>, cases: seq<Observed>, k: nat, sig: Signature)
    requires Distinct(causes)
    ensures Named(causes, |causes|, cases, |cases|, sig, FirstCauses(Ranking(causes, |causes|, cases, sig), k)) ==
            TopSum(Ranking(causes, |causes|, cases, sig), k)
  {
    var ranking := Ranking(causes, |causes|, cases, sig);
    RankingKeeps(causes, |causes|, cases, sig, FirstCauses(ranking, k));
    FirstCausesReach(ranking, k);
  }

  lemma {:induction false} MajorityReachesProbe(causes: seq<Cause>, cases: seq<Observed>, k: nat, order: seq<Signature>)
    requires Distinct(causes)
    ensures NamedOver(causes, cases, |cases|, MajorityPrior(causes, cases, k), order, |order|) == ProbeScore(causes, cases, k, order, |order|)
  {
    var named, top := NamedBy(causes, cases, |cases|, MajorityPrior(causes, cases, k)), TopOf(causes, cases, k);
    forall i | 0 <= i < |order| ensures named(order[i]) == top(order[i]) {
      PriorReachesTop(causes, cases, k, order[i]);
    }
    SumsInOrder(order, |order|, named, top);
    SumsInOrder(order, |order|, top, named);
  }

  /**
   * The probe's score is the maximum number of correct cases over all classifiers that name at
   * most `k` causes per signature: none exceeds it, and the majority prior reaches it.
   */
  lemma {:induction false} ProbeIsOptimal(causes: seq<Cause>, cases: seq<Observed>, k: nat, f: Signature -> set<Cause>)
    requires Distinct(causes) && forall i | 0 <= i < |cases| :: cases[i].cause in causes
    ensures NamesAtMost(f, k) ==> Correct(cases, |cases|, f) <= Probe(causes, cases, k)
    ensures NamesAtMost(MajorityPrior(causes, cases, k), k)
    ensures Correct(cases, |cases|, MajorityPrior(causes, cases, k)) == Probe(causes, cases, k)
  {
    var order := Signatures(cases, |cases|);
    SignaturesCover(cases, |cases|);
    CorrectIsNamed(causes, cases, |cases|, f, order);
    CorrectIsNamed(causes, cases, |cases|, MajorityPrior(causes, cases, k), order);
    if NamesAtMost(f, k) {
      NamedAtMostProbe(causes, cases, f, k, order);
    }
    MajorityReachesProbe(causes, cases, k, order);
    forall sig
      ensures |MajorityPrior(causes, cases, k)(sig)| <= k
    {
      RankingKeeps(causes, |causes|, cases, sig, {});
      FirstCausesReach(Ranking(causes, |causes|, cases, sig), k);
    }
  }

  // ---------------------------------------------------------------------------------------------
  // What the packet validator leaves of a signature.

  datatype Group = Group(kind: string, samples: nat)

  /** The shape `validate_observation_packet_v3` demands of the evidence groups. */
  predicate GroupsAccepted(kinds: set<string>, groups: seq<Group>) {
    && |groups| == |kinds|
    && (set g | g in groups :: g.kind) == kinds
    && forall g | g in groups :: g.samples == 7
  }

  function SignatureOf(groups: seq<Group>): Signature {
    set g | g in groups && g.samples > 0 :: g.kind
  }

  /** A signature shows the kinds of the groups that hold any sample. */
  lemma {:induction false} SignatureShows(groups: seq<Group>, kind: string)
    ensures kind in SignatureOf(groups) <==> exists i :: 0 <= i < |groups| && groups[i].kind == kind && groups[i].samples != 0
  {
    if i :| 0 <= i < |groups| && groups[i].kind == kind && groups[i].samples != 0 {
      assert groups[i] in groups;
    }
  }

  /** Accepted packets all have the same signature, so the probe learns nothing but the class prior. */
  lemma {:induction false} AcceptedSignature(kinds: set<string>, groups: seq<Group>)
    requires GroupsAccepted(kinds, groups)
    ensures SignatureOf(groups) == kinds
  {
    assert SignatureOf(groups) == set g | g in groups :: g.kind;
  }

  function KindsOf(groups: seq<Group>): seq<string> {
    seq(|groups|, i requires 0 <= i < |groups| => groups[i].kind)
  }

  ghost predicate HasKind(groups: seq<Group>, kind: string) {
    exists i :: 0 <= i < |groups| && groups[i].kind == kind
  }

  lemma {:induction false} KindListed(groups: seq<Group>, kind: string)
    ensures HasKind(groups, kind) <==> kind in KindsOf(groups)
    ensures HasKind(groups, kind) <==> kind in set g | g in groups :: g.kind
  {
    if i :| 0 <= i < |groups| && groups[i].kind == kind {
      assert groups[i] in groups && KindsOf(groups)[i] == kind;
    }
  }

  lemma {:induction false} KindSets(groups: seq<Group>)
    ensures Elements(KindsOf(groups)) == set g | g in groups :: g.kind
    ensures Distinct(KindsOf(groups)) <==> forall i, j | 0 <= i < j < |groups| :: groups[i].kind != groups[j].kind
  {
    forall kind ensures kind in Elements(KindsOf(groups)) <==> kind in set g | g in groups :: g.kind {
      KindListed(groups, kind);
    }
    var names := KindsOf(groups);
    assert forall i | 0 <= i < |groups| :: names[i] == groups[i].kind;
  }

  /** A packet is accepted exactly if it has one group of each registered kind, each with seven samples. */
  lemma {:induction false} AcceptedGroups(kinds: set<string>, groups: seq<Group>)
    ensures GroupsAccepted(kinds, groups) <==>
            && (forall g | g in groups :: g.samples == 7)
            && (forall kind :: HasKind(groups, kind) <==> kind in kinds)
            && (forall i, j | 0 <= i < j < |groups| :: groups[i].kind != groups[j].kind)
  {
    KindSets(groups);
    CountDistinct(KindsOf(groups));
    var shown := set g | g in groups :: g.kind;
    forall kind ensures HasKind(groups, kind) <==> kind in shown {
      KindListed(groups, kind);
    }
    assert shown == kinds <==> forall kind :: HasKind(groups, kind) <==> kind in kinds;
    assert |KindsOf(groups)| == |groups| && Elements(KindsOf(groups)) == shown;
  }

  ghost predicate OneSignature(cases: seq<Observed>, kinds: Signature) {
    forall i | 0 <= i < |cases| :: cases[i].signature == kinds
  }

  lemma {:induction false} SingleSignature(cases: seq<Observed>, n: nat, kinds: Signature)
    requires 0 < n <= |cases| && OneSignature(cases, kinds)
    ensures Signatures(cases, n) == [kinds]
    decreases n
  {
    if n > 1 {
      SingleSignature(cases, n - 1, kinds);
    }
  }

  lemma {:induction false} TopOneOverOneSignature(causes: seq<Cause>, cases: seq<Observed>, kinds: Signature, cause: Cause)
    requires Distinct(causes) && cases != [] && OneSignature(cases, kinds) && cause in causes
    requires forall i | 0 <= i < |cases| :: cases[i].cause in causes
    ensures Count(cases, |cases|, kinds, cause) <= Probe(causes, cases, 1)
    ensures exists best :: best in causes && Count(cases, |cases|, kinds, best) == Probe(causes, cases, 1)
  {
    SingleSignature(cases, |cases|, kinds);
    var order := Signatures(cases, |cases|);
    var ranking := Ranking(causes, |causes|, cases, kinds);
    RankingKeeps(causes, |causes|, cases, kinds, {cause});
    assert ProbeScore(causes, cases, 1, order, 1) == ProbeScore(causes, cases, 1, order, 0) + TopSum(ranking, 1);
    TopSumIsBest(ranking, 1, {cause});
    NamedSingle(causes, |causes|, cases, kinds, cause);
    RankingEntries(causes, |causes|, cases, kinds, cases[0].cause);
    assert Count(cases, |cases|, kinds, cases[0].cause) > 0 by {
      CountSeen(cases, |cases|, kinds);
    }
    assert TopSum(ranking, 1) == ranking[0].count + TopSum(ranking[1..], 0);
    assert ranking[0] in ranking;
    assert causes[..|causes|] == causes;
    assert ranking[0].cause in causes && Count(cases, |cases|, kinds, ranking[0].cause) == Probe(causes, cases, 1);
  }

  /** A case: its ground-truth cause and the evidence groups of its packet. */
  datatype PacketCase = PacketCase(cause: Cause, groups: seq<Group>)

  function ObservedCases(packets: seq<PacketCase>): (cases: seq<Observed>)
    ensures |cases| == |packets|
  {
    seq(|packets|, i requires 0 <= i < |packets| => Observed(SignatureOf(packets[i].groups), packets[i].cause))
  }

  /** The packets among the first `n` with this cause. */
  function CauseCount(packets: seq<PacketCase>, n: nat, cause: Cause): nat
    requires n <= |packets|
  {
    if n == 0 then 0 else CauseCount(packets, n - 1, cause) + if packets[n - 1].cause == cause then 1 else 0
  }

  ghost predicate AllAccepted(kinds: set<string>, packets: seq<PacketCase>) {
    forall i | 0 <= i < |packets| :: GroupsAccepted(kinds, packets[i].groups)
  }

  lemma {:induction false} AcceptedCounts(kinds: set<string>, packets: seq<PacketCase>, n: nat, cause: Cause)
    requires AllAccepted(kinds, packets) && n <= |packets|
    ensures Count(ObservedCases(packets), n, kinds, cause) == CauseCount(packets, n, cause)
    decreases n
  {
    if n > 0 {
      AcceptedCounts(kinds, packets, n - 1, cause);
      AcceptedSignature(kinds, packets[n - 1].groups);
    }
  }

  /** On accepted packets top-1 is the largest count of any cause: their signatures tell nothing. */
  lemma {:induction false} TopOneIsLargestPrior(causes: seq<Cause>, kinds: set<string>, packets: seq<PacketCase>, cause: Cause)
    requires Distinct(causes) && packets != [] && AllAccepted(kinds, packets) && cause in causes
    requires forall i | 0 <= i < |packets| :: packets[i].cause in causes
    ensures CauseCount(packets, |packets|, cause) <= Probe(causes, ObservedCases(packets), 1)
    ensures exists best :: best in causes && CauseCount(packets, |packets|, best) == Probe(causes, ObservedCases(packets), 1)
  {
    var cases := ObservedCases(packets);
    forall i | 0 <= i < |cases| ensures cases[i].signature == kinds {
      AcceptedSignature(kinds, packets[i].groups);
    }
    TopOneOverOneSignature(causes, cases, kinds, cause);
    AcceptedCounts(kinds, packets, |packets|, cause);
    var best :| best in causes && Count(cases, |cases|, kinds, best) == Probe(causes, cases, 1);
    AcceptedCounts(kinds, packets, |packets|, best);
  }

  lemma {:induction false} CountSeen(cases: seq<Observed>, n: nat, kinds: Signature)
    requires 0 < n <= |cases| && cases[0].signature == kinds
    ensures Count(cases, n, kinds, cases[0].cause) > 0
    decreases n
  {
    if n > 1 {
      CountSeen(cases, n - 1, kinds);
    }
  }

  lemma {:induction false} NamedSingle(causes: seq<Cause>, m: nat, cases: seq<Observed>, sig: Signature, cause: Cause)
    requires m <= |causes| && Distinct(causes)
    ensures Named(causes, m, cases, |cases|, sig, {cause}) == if cause in causes[..m] then Count(cases, |cases|, sig, cause) else 0
    decreases m
  {
    if m > 0 {
      NamedSingle(causes, m - 1, cases, sig, cause);
      assert causes[..m] == causes[..m - 1] + [causes[m - 1]];
      assert causes[m - 1] !in causes[..m - 1];
    }
  }

  lemma {:induction false} RankingEntries(causes: seq<Cause>, m: nat, cases: seq<Observed>, sig: Signature, cause: Cause)
    requires m <= |causes| && Distinct(causes)
    ensures forall y | y in Ranking(causes, m, cases, sig) :: y.count == Count(cases, |cases|, sig, y.cause)
    ensures cause in causes[..m] && Count(cases, |cases|, sig, cause) > 0 ==> Ranking(causes, m, cases, sig) != []
    decreases m
  {
    if m > 0 {
      RankingEntries(causes, m - 1, cases, sig, cause);
      assert causes[..m] == causes[..m - 1] + [causes[m - 1]];
      PlaceMembers(Tally(causes[m - 1], Count(cases, |cases|, sig, causes[m - 1])), Ranking(causes, m - 1, cases, sig));
    }
  }
}
