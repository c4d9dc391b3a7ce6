/**
 * Classifier A of `g03_leakage_probe.py`: leave-one-out votes of the tokens that occur in a single
 * family, and the nearest-neighbour variant kept beside it. Labels are numbered in lexical order;
 * a case is the list of its incident tokens, without repetition.
 */
module Descriptions {
  import opened Prelude

  type Token = string

  /** The cases in the order of their identifiers, and the root of each. */
  ghost predicate Labelled(tokens: seq<seq<Token>>, roots: seq<nat>, labels: nat) {
    && |roots| == |tokens| && (forall i | 0 <= i < |roots| :: roots[i] < labels)
    && forall i | 0 <= i < |tokens| :: Distinct(tokens[i])
  }

  ghost predicate ValidFold(fold: seq<nat>, n: nat) {
    Distinct(fold) && forall k | 0 <= k < |fold| :: fold[k] < n
  }

  // ---------------------------------------------------------------------------------------------
  // The keyword table.

  /** How many of the first `m` cases of a fold belong to the family and show the token. */
  function Shown(tokens: seq<seq<Token>>, roots: seq<nat>, fold: seq<nat>, m: nat, t: Token, l: nat): nat
    requires |roots| == |tokens| && m <= |fold| && forall k | 0 <= k < |fold| :: fold[k] < |tokens|
  {
    if m == 0 then 0 else
      Shown(tokens, roots, fold, m - 1, t, l)
      + if roots[fold[m - 1]] == l && t in tokens[fold[m - 1]] then 1 else 0
  }

  /** The token occurs in this family and in no other. */
  ghost predicate Discriminates(tokens: seq<seq<Token>>, roots: seq<nat>, fold: seq<nat>, t: Token, l: nat)
    requires |roots| == |tokens| && forall k | 0 <= k < |fold| :: fold[k] < |tokens|
  {
    && (exists k :: 0 <= k < |fold| && t in tokens[fold[k]])
    && (forall k | 0 <= k < |fold| && t in tokens[fold[k]] :: roots[fold[k]] == l)
  }

  lemma {:induction false} ShownWhenPresent(tokens: seq<seq<Token>>, roots: seq<nat>, fold: seq<nat>, m: nat, t: Token, l: nat)
    requires |roots| == |tokens| && m <= |fold| && forall k | 0 <= k < |fold| :: fold[k] < |tokens|
    ensures Shown(tokens, roots, fold, m, t, l) > 0 <==>
            exists k :: 0 <= k < m && t in tokens[fold[k]] && roots[fold[k]] == l
    decreases m
  {
    if m > 0 {
      ShownWhenPresent(tokens, roots, fold, m - 1, t, l);
    }
  }

  type Counters = seq<map<Token, nat>>

  /** The per-family counters after the first `m` cases: positive counts only, each the number of cases. */
  ghost predicate Counted(tokens: seq<seq<Token>>, roots: seq<nat>, labels: nat, fold: seq<nat>, m: nat, perFamily: Counters)
    requires Labelled(tokens, roots, labels) && ValidFold(fold, |tokens|) && m <= |fold|
  {
    && |perFamily| == labels
    && forall l: nat, t: Token | l < labels ::
         && Lookup(perFamily[l], t) == Shown(tokens, roots, fold, m, t, l)
         && (t in perFamily[l] ==> perFamily[l][t] > 0)
  }

  method CountTokens(tokens: seq<seq<Token>>, roots: seq<nat>, labels: nat, fold: seq<nat>) returns (perFamily: Counters)
    requires Labelled(tokens, roots, labels) && ValidFold(fold, |tokens|)
    ensures Counted(tokens, roots, labels, fold, |fold|, perFamily)
  {
    perFamily := seq(labels, _ => map[]);
    for m := 0 to |fold|
      invariant Counted(tokens, roots, labels, fold, m, perFamily)
    {
      var root, shown := roots[fold[m]], tokens[fold[m]];
      var counter: map<Token, nat> := perFamily[root];
      for j := 0 to |shown|
        invariant forall t: Token :: Lookup(counter, t) == Lookup(perFamily[root], t) + if t in shown[..j] then 1 else 0
        invariant forall t | t in counter :: counter[t] > 0
      {
        counter := counter[shown[j] := Lookup(counter, shown[j]) + 1];
        assert shown[..j + 1] == shown[..j] + [shown[j]];
        assert shown[j] !in shown[..j];
      }
      assert shown[..|shown|] == shown;
      perFamily := perFamily[root := counter];
    }
  }

  /** In how many of the first `m` families a token occurs. */
  function Families(perFamily: Counters, t: Token, m: nat): nat
    requires m <= |perFamily|
  {
    if m == 0 then 0 else Families(perFamily, t, m - 1) + if t in perFamily[m - 1] then 1 else 0
  }

  lemma {:induction false} NoFamily(perFamily: Counters, t: Token, m: nat)
    requires m <= |perFamily|
    ensures Families(perFamily, t, m) == 0 <==> forall k | 0 <= k < m :: t !in perFamily[k]
    decreases m
  {
    if m > 0 {
      NoFamily(perFamily, t, m - 1);
    }
  }

  lemma {:induction false} OneFamily(perFamily: Counters, t: Token, m: nat, l: nat)
    requires l < m <= |perFamily| && t in perFamily[l]
    ensures Families(perFamily, t, m) == 1 <==> forall k | 0 <= k < m && k != l :: t !in perFamily[k]
    decreases m
  {
    if m - 1 == l {
      NoFamily(perFamily, t, m - 1);
    } else {
      OneFamily(perFamily, t, m - 1, l);
      NoFamily(perFamily, t, m - 1);
    }
  }

  method CountFamilies(perFamily: Counters) returns (families: map<Token, nat>)
    ensures forall t: Token :: Lookup(families, t) == Families(perFamily, t, |perFamily|)
  {
    families := map[];
    for l := 0 to |perFamily|
      invariant forall t: Token :: Lookup(families, t) == Families(perFamily, t, l)
    {
      ghost var before := families;
      var pending := perFamily[l].Keys;
      while pending != {}
        invariant pending <= perFamily[l].Keys
        invariant forall t: Token ::
                    Lookup(families, t) == Lookup(before, t) + if t in perFamily[l] && t !in pending then 1 else 0
        decreases |pending|
      {
        var t :| t in pending;
        families := families[t := Lookup(families, t) + 1];
        pending := pending - {t};
      }
    }
  }

  lemma {:induction false} InOneFamily(tokens: seq<seq<Token>>, roots: seq<nat>, labels: nat, fold: seq<nat>, perFamily: Counters, t: Token, l: nat)
    requires Labelled(tokens, roots, labels) && ValidFold(fold, |tokens|) && l < labels
    requires Counted(tokens, roots, labels, fold, |fold|, perFamily)
    ensures t in perFamily[l] && Families(perFamily, t, labels) == 1 <==> Discriminates(tokens, roots, fold, t, l)
  {
    forall k: nat | k < labels
      ensures t in perFamily[k] <==> exists j :: 0 <= j < |fold| && t in tokens[fold[j]] && roots[fold[j]] == k
    {
      ShownWhenPresent(tokens, roots, fold, |fold|, t, k);
      assert Lookup(perFamily[k], t) == Shown(tokens, roots, fold, |fold|, t, k);
    }
    if t in perFamily[l] {
      OneFamily(perFamily, t, labels, l);
      if Families(perFamily, t, labels) == 1 {
        forall j | 0 <= j < |fold| && t in tokens[fold[j]]
          ensures roots[fold[j]] == l
        {
          assert t in perFamily[roots[fold[j]]];
        }
      }
    }
  }

  /** The tokens of a fold that occur in exactly one family, under that family, with their case counts. */
  method KeywordTable(tokens: seq<seq<Token>>, roots: seq<nat>, labels: nat, fold: seq<nat>) returns (table: Counters)
    requires Labelled(tokens, roots, labels) && ValidFold(fold, |tokens|)
    ensures |table| == labels
    ensures forall l: nat, t: Token | l < labels :: t in table[l] <==> Discriminates(tokens, roots, fold, t, l)
    ensures forall l: nat, t: Token | l < labels && t in table[l] :: table[l][t] == Shown(tokens, roots, fold, |fold|, t, l)
  {
    var perFamily := CountTokens(tokens, roots, labels, fold);
    var families := CountFamilies(perFamily);
    table := seq(labels, l requires 0 <= l < labels => map t | t in perFamily[l] && Lookup(families, t) == 1 :: perFamily[l][t]);
    forall l: nat, t: Token | l < labels
      ensures t in table[l] <==> Discriminates(tokens, roots, fold, t, l)
    {
      InOneFamily(tokens, roots, labels, fold, perFamily, t, l);
    }
  }

  // ---------------------------------------------------------------------------------------------
  // Votes.

  /** The winner has the most votes and, among those, the lexically least label; no votes, no winner. */
  ghost predicate IsWinner(votes: seq<nat>, winner: Option<nat>) {
    match winner
    case None => forall l | 0 <= l < |votes| :: votes[l] == 0
    case Some(best) =>
      && best < |votes| && votes[best] > 0
      && forall l | 0 <= l < |votes| :: votes[l] < votes[best] || (votes[l] == votes[best] && best <= l)
  }

  method MostVotes(votes: seq<nat>) returns (winner: Option<nat>)
    ensures IsWinner(votes, winner)
  {
    winner := None;
    for l := 0 to |votes|
      invariant IsWinner(votes[..l], winner)
    {
      if votes[l] > 0 && (winner == None || votes[l] > votes[winner.value]) {
        winner := Some(l);
      }
      assert votes[..l + 1] == votes[..l] + [votes[l]];
    }
    assert votes[..|votes|] == votes;
  }

  /** Some other case shows the token, and every other case that does belongs to the family. */
  ghost predicate Indicates(tokens: seq<seq<Token>>, roots: seq<nat>, heldOut: nat, t: Token, l: nat)
    requires |roots| == |tokens|
  {
    && (exists i :: 0 <= i < |tokens| && i != heldOut && t in tokens[i])
    && (forall i | 0 <= i < |tokens| && i != heldOut && t in tokens[i] :: roots[i] == l)
  }

  /** How many of the first `m` held-out tokens indicate the family. */
  ghost function Votes(tokens: seq<seq<Token>>, roots: seq<nat>, heldOut: nat, l: nat, m: nat): nat
    requires |roots| == |tokens| && heldOut < |tokens| && m <= |tokens[heldOut]|
  {
    if m == 0 then 0 else
      Votes(tokens, roots, heldOut, l, m - 1) + if Indicates(tokens, roots, heldOut, tokens[heldOut][m - 1], l) then 1 else 0
  }

  ghost function AllVotes(tokens: seq<seq<Token>>, roots: seq<nat>, labels: nat, heldOut: nat): seq<nat>
    requires |roots| == |tokens| && heldOut < |tokens|
  {
    seq(labels, l requires 0 <= l < labels => Votes(tokens, roots, heldOut, l, |tokens[heldOut]|))
  }

  /** The token-overlap score of two cases. */
  function Jaccard(left: seq<Token>, right: seq<Token>): real {
    var a, b := Elements(left), Elements(right);
    if a + b == {} then 1.0 else (|a * b| as real) / (|a + b| as real)
  }

  /** Every token of the one is a token of the other. */
  ghost predicate Covers(left: seq<Token>, right: seq<Token>) {
    forall t | t in left :: t in right
  }

  /** The share of common tokens among all tokens. */
  ghost predicate IsShare(left: seq<Token>, right: seq<Token>, share: real) {
    share * (|set t | t in left + right| as real) == |set t | t in left && t in right| as real
  }

  lemma {:induction false} ShareBounds(part: real, whole: real)
    requires 0.0 <= part <= whole && whole > 0.0
    ensures 0.0 <= part / whole <= 1.0 && part / whole * whole == part
    ensures (part / whole == 1.0 <==> part == whole) && (part / whole == 0.0 <==> part == 0.0)
  {
    assert part / whole * whole == part;
    assert (1.0 - part / whole) * whole == whole - part;
  }

  lemma {:induction false} SubsetSize<T>(part: set<T>, whole: set<T>)
    requires part <= whole
    ensures |part| <= |whole| && (|part| == |whole| <==> part == whole)
  {
    assert whole == part + (whole - part);
  }

  lemma {:induction false} NoToken(s: seq<Token>)
    ensures Elements(s) == {} <==> s == []
  {
    assert s == [] || s[0] in Elements(s);
  }

  lemma {:induction false} SameTokens(left: seq<Token>, right: seq<Token>)
    ensures Elements(left) * Elements(right) == Elements(left) + Elements(right) <==> Covers(left, right) && Covers(right, left)
  {
    var a, b := Elements(left), Elements(right);
    if a * b == a + b {
      forall t | t in left || t in right ensures t in left && t in right {
        assert t in a + b;
      }
    }
  }

  /** No token of the one is a token of the other. */
  ghost predicate Apart(left: seq<Token>, right: seq<Token>) {
    forall t | t in left :: t !in right
  }

  lemma {:induction false} NoCommonToken(left: seq<Token>, right: seq<Token>)
    ensures Elements(left) * Elements(right) == {} <==> Apart(left, right)
  {
    if Elements(left) * Elements(right) == {} {
      forall t | t in left ensures t !in right {
        assert t !in Elements(left) * Elements(right);
      }
    }
  }

  lemma {:induction false} ShareOfSets(left: seq<Token>, right: seq<Token>, share: real)
    requires share * (|Elements(left) + Elements(right)| as real) == |Elements(left) * Elements(right)| as real
    ensures IsShare(left, right, share)
  {
    assert Elements(left) + Elements(right) == set t | t in left + right;
    assert Elements(left) * Elements(right) == set t | t in left && t in right;
  }

  lemma {:induction false} JaccardOfSets(a: set<Token>, b: set<Token>, score: real)
    requires score == if a + b == {} then 1.0 else (|a * b| as real) / (|a + b| as real)
    ensures score * (|a + b| as real) == |a * b| as real && 0.0 <= score <= 1.0
    ensures score == 1.0 <==> a * b == a + b
    ensures score == 0.0 <==> a * b == {} && a + b != {}
  {
    SubsetSize(a * b, a + b);
    if a + b != {} {
      ShareBounds(|a * b| as real, |a + b| as real);
    }
  }

  /**
   * The overlap score is the share of common tokens: it is one exactly for two cases with the same
   * tokens, none at all included, and nothing exactly for two that have no token in common.
   */
  lemma {:induction false} JaccardMeans(left: seq<Token>, right: seq<Token>)
    ensures IsShare(left, right, Jaccard(left, right)) && 0.0 <= Jaccard(left, right) <= 1.0
    ensures Jaccard(left, right) == 1.0 <==> Covers(left, right) && Covers(right, left)
    ensures Jaccard(left, right) == 0.0 <==> (left != [] || right != []) && Apart(left, right)
  {
    var score := Jaccard(left, right);
    JaccardOfSets(Elements(left), Elements(right), score);
    ShareOfSets(left, right, score);
    NoToken(left);
    NoToken(right);
    SameTokens(left, right);
    NoCommonToken(left, right);
  }

  /** No other case is closer to the held-out one. */
  ghost predicate IsNeighbour(tokens: seq<seq<Token>>, heldOut: nat, i: nat)
    requires heldOut < |tokens|
  {
    && i < |tokens| && i != heldOut
    && forall j | 0 <= j < |tokens| && j != heldOut ::
         Jaccard(tokens[heldOut], tokens[j]) <= Jaccard(tokens[heldOut], tokens[i])
  }

  /** How many of the first `m` cases are nearest neighbours of the family. */
  ghost function NeighbourVotes(tokens: seq<seq<Token>>, roots: seq<nat>, heldOut: nat, l: nat, m: nat): nat
    requires |roots| == |tokens| && heldOut < |tokens| && m <= |tokens|
  {
    if m == 0 then 0 else
      NeighbourVotes(tokens, roots, heldOut, l, m - 1) + if IsNeighbour(tokens, heldOut, m - 1) && roots[m - 1] == l then 1 else 0
  }

  ghost function AllNeighbourVotes(tokens: seq<seq<Token>>, roots: seq<nat>, labels: nat, heldOut: nat): seq<nat>
    requires |roots| == |tokens| && heldOut < |tokens|
  {
    seq(labels, l requires 0 <= l < labels => NeighbourVotes(tokens, roots, heldOut, l, |tokens|))
  }

  /** One fold of `classify_descriptions_loo`. */
  datatype Fold = Fold(prediction: Option<nat>, nearest: Option<nat>)

  ghost predicate IsFold(tokens: seq<seq<Token>>, roots: seq<nat>, labels: nat, heldOut: nat, fold: Fold)
    requires |roots| == |tokens| && heldOut < |tokens|
  {
    && IsWinner(AllVotes(tokens, roots, labels, heldOut), fold.prediction)
    && IsWinner(AllNeighbourVotes(tokens, roots, labels, heldOut), fold.nearest)
  }

  lemma {:induction false} IndicatesIsDiscriminates(tokens: seq<seq<Token>>, roots: seq<nat>, heldOut: nat, t: Token, l: nat)
    requires |roots| == |tokens|
    ensures Indicates(tokens, roots, heldOut, t, l) <==> Discriminates(tokens, roots, Training(|tokens|, heldOut), t, l)
  {
    var fold := Training(|tokens|, heldOut);
    forall k | 0 <= k < |fold|
      ensures fold[k] != heldOut
    {
      assert fold[k] in fold;
    }
    if Discriminates(tokens, roots, fold, t, l) {
      forall i | 0 <= i < |tokens| && i != heldOut && t in tokens[i]
        ensures roots[i] == l
      {
        assert i in fold;
        var k :| 0 <= k < |fold| && fold[k] == i;
      }
    } else if i: nat :| i < |tokens| && i != heldOut && t in tokens[i] {
      assert i in fold;
      var k :| 0 <= k < |fold| && fold[k] == i;
    }
  }

  method VoteByTokens(tokens: seq<seq<Token>>, roots: seq<nat>, labels: nat, heldOut: nat) returns (prediction: Option<nat>)
    requires Labelled(tokens, roots, labels) && heldOut < |tokens|
    ensures IsWinner(AllVotes(tokens, roots, labels, heldOut), prediction)
  {
    var fold := Training(|tokens|, heldOut);
    var table := KeywordTable(tokens, roots, labels, fold);
    var votes := [];
    for l := 0 to labels
      invariant |votes| == l
      invariant forall k | 0 <= k < l :: votes[k] == Votes(tokens, roots, heldOut, k, |tokens[heldOut]|)
    {
      var hits := 0;
      for j := 0 to |tokens[heldOut]|
        invariant hits == Votes(tokens, roots, heldOut, l, j)
      {
        IndicatesIsDiscriminates(tokens, roots, heldOut, tokens[heldOut][j], l);
        if tokens[heldOut][j] in table[l] {
          hits := hits + 1;
        }
      }
      votes := votes + [hits];
    }
    assert votes == AllVotes(tokens, roots, labels, heldOut);
    prediction := MostVotes(votes);
  }

  /** The highest overlap with a training case. */
  method BestSimilarity(tokens: seq<seq<Token>>, heldOut: nat) returns (best: real)
    requires heldOut < |tokens| && |tokens| > 1
    ensures exists i :: 0 <= i < |tokens| && i != heldOut && Jaccard(tokens[heldOut], tokens[i]) == best
    ensures forall i | 0 <= i < |tokens| && i != heldOut :: Jaccard(tokens[heldOut], tokens[i]) <= best
  {
    var first := if heldOut == 0 then 1 else 0;
    best := Jaccard(tokens[heldOut], tokens[first]);
    for j := 0 to |tokens|
      invariant exists i :: 0 <= i < |tokens| && i != heldOut && Jaccard(tokens[heldOut], tokens[i]) == best
      invariant forall i | 0 <= i < j && i != heldOut :: Jaccard(tokens[heldOut], tokens[i]) <= best
    {
      var score := Jaccard(tokens[heldOut], tokens[j]);
      if j != heldOut && score > best {
        best := score;
      }
    }
  }

  /** Which cases are at the best score. */
  method Nearest(tokens: seq<seq<Token>>, heldOut: nat) returns (near: seq<bool>)
    requires heldOut < |tokens| && |tokens| > 1
    ensures |near| == |tokens| && forall i: nat | i < |tokens| :: near[i] <==> IsNeighbour(tokens, heldOut, i)
  {
    var best := BestSimilarity(tokens, heldOut);
    near := [];
    for i := 0 to |tokens|
      invariant |near| == i
      invariant forall k: nat | k < i :: near[k] <==> IsNeighbour(tokens, heldOut, k)
    {
      near := near + [i != heldOut && Jaccard(tokens[heldOut], tokens[i]) == best];
    }
  }

  method VoteByNeighbours(tokens: seq<seq<Token>>, roots: seq<nat>, labels: nat, heldOut: nat) returns (prediction: Option<nat>)
    requires Labelled(tokens, roots, labels) && heldOut < |tokens| && |tokens| > 1
    ensures IsWinner(AllNeighbourVotes(tokens, roots, labels, heldOut), prediction)
  {
    var near := Nearest(tokens, heldOut);
    var votes := seq(labels, _ => 0);
    for i := 0 to |tokens|
      invariant |votes| == labels
      invariant forall l | 0 <= l < labels :: votes[l] == NeighbourVotes(tokens, roots, heldOut, l, i)
    {
      if near[i] {
        votes := votes[roots[i] := votes[roots[i]] + 1];
      }
    }
    assert votes == AllNeighbourVotes(tokens, roots, labels, heldOut);
    prediction := MostVotes(votes);
  }

  method ClassifyDescriptionsLoo(tokens: seq<seq<Token>>, roots: seq<nat>, labels: nat) returns (folds: seq<Fold>)
    requires Labelled(tokens, roots, labels) && |tokens| > 1
    ensures |folds| == |tokens|
    ensures forall i | 0 <= i < |folds| :: IsFold(tokens, roots, labels, i, folds[i])
  {
    folds := [];
    for i := 0 to |tokens|
      invariant |folds| == i
      invariant forall k | 0 <= k < i :: IsFold(tokens, roots, labels, k, folds[k])
    {
      var prediction := VoteByTokens(tokens, roots, labels, i);
      var nearest := VoteByNeighbours(tokens, roots, labels, i);
      folds := folds + [Fold(prediction, nearest)];
    }
  }

  // ---------------------------------------------------------------------------------------------
  // Non-interference.

  lemma WinnerIsUnique(votes: seq<nat>, a: Option<nat>, b: Option<nat>)
    requires IsWinner(votes, a) && IsWinner(votes, b)
    ensures a == b
  {
  }

  lemma {:induction false} VotesIgnoreOwnRoot(tokens: seq<seq<Token>>, roots: seq<nat>, heldOut: nat, other: nat, l: nat, m: nat)
    requires |roots| == |tokens| && heldOut < |tokens| && m <= |tokens[heldOut]|
    ensures Votes(tokens, roots[heldOut := other], heldOut, l, m) == Votes(tokens, roots, heldOut, l, m)
    decreases m
  {
    if m > 0 {
      VotesIgnoreOwnRoot(tokens, roots, heldOut, other, l, m - 1);
    }
  }

  lemma {:induction false} NeighbourVotesIgnoreOwnRoot(tokens: seq<seq<Token>>, roots: seq<nat>, heldOut: nat, other: nat, l: nat, m: nat)
    requires |roots| == |tokens| && heldOut < |tokens| && m <= |tokens|
    ensures NeighbourVotes(tokens, roots[heldOut := other], heldOut, l, m) == NeighbourVotes(tokens, roots, heldOut, l, m)
    decreases m
  {
    if m > 0 {
      NeighbourVotesIgnoreOwnRoot(tokens, roots, heldOut, other, l, m - 1);
    }
  }

  /** A case's fold answers the same whatever the case's own label is. */
  lemma {:induction false} OwnLabelDoesNotInterfere(tokens: seq<seq<Token>>, roots: seq<nat>, labels: nat, heldOut: nat, other: nat, a: Fold, b: Fold)
    requires Labelled(tokens, roots, labels) && heldOut < |tokens|
    requires IsFold(tokens, roots, labels, heldOut, a)
    requires IsFold(tokens, roots[heldOut := other], labels, heldOut, b)
    ensures a == b
  {
    forall l: nat | l < labels
      ensures AllVotes(tokens, roots, labels, heldOut)[l] == AllVotes(tokens, roots[heldOut := other], labels, heldOut)[l]
      ensures AllNeighbourVotes(tokens, roots, labels, heldOut)[l] == AllNeighbourVotes(tokens, roots[heldOut := other], labels, heldOut)[l]
    {
      VotesIgnoreOwnRoot(tokens, roots, heldOut, other, l, |tokens[heldOut]|);
      NeighbourVotesIgnoreOwnRoot(tokens, roots, heldOut, other, l, |tokens|);
    }
    assert AllVotes(tokens, roots, labels, heldOut) == AllVotes(tokens, roots[heldOut := other], labels, heldOut);
    assert AllNeighbourVotes(tokens, roots, labels, heldOut) == AllNeighbourVotes(tokens, roots[heldOut := other], labels, heldOut);
    WinnerIsUnique(AllVotes(tokens, roots, labels, heldOut), a.prediction, b.prediction);
    WinnerIsUnique(AllNeighbourVotes(tokens, roots, labels, heldOut), a.nearest, b.nearest);
  }

  lemma {:induction false} SomeVote(tokens: seq<seq<Token>>, roots: seq<nat>, heldOut: nat, l: nat, m: nat)
    requires |roots| == |tokens| && heldOut < |tokens| && m <= |tokens[heldOut]|
    ensures Votes(tokens, roots, heldOut, l, m) > 0 <==>
            exists j :: 0 <= j < m && Indicates(tokens, roots, heldOut, tokens[heldOut][j], l)
    decreases m
  {
    if m > 0 {
      SomeVote(tokens, roots, heldOut, l, m - 1);
    }
  }

  /**
   * The token vote abstains exactly when every held-out token is unknown to the other cases or
   * shared by two of their families; the neighbour vote never abstains.
   */
  lemma {:induction false} AbstainsIff(tokens: seq<seq<Token>>, roots: seq<nat>, labels: nat, heldOut: nat, fold: Fold)
    requires Labelled(tokens, roots, labels) && heldOut < |tokens| && |tokens| > 1
    requires IsFold(tokens, roots, labels, heldOut, fold)
    ensures fold.prediction == None <==>
            forall j, l: nat | 0 <= j < |tokens[heldOut]| && l < labels :: !Indicates(tokens, roots, heldOut, tokens[heldOut][j], l)
    ensures fold.nearest.Some?
  {
    forall l: nat | l < labels
      ensures AllVotes(tokens, roots, labels, heldOut)[l] > 0 <==>
              exists j :: 0 <= j < |tokens[heldOut]| && Indicates(tokens, roots, heldOut, tokens[heldOut][j], l)
    {
      SomeVote(tokens, roots, heldOut, l, |tokens[heldOut]|);
    }
    if fold.prediction == None {
      forall j, l: nat | 0 <= j < |tokens[heldOut]| && l < labels
        ensures !Indicates(tokens, roots, heldOut, tokens[heldOut][j], l)
      {
        assert AllVotes(tokens, roots, labels, heldOut)[l] == 0;
      }
    }
    var i := ANeighbour(tokens, heldOut, |tokens|);
    NeighbourCounts(tokens, roots, heldOut, i, |tokens|);
    assert AllNeighbourVotes(tokens, roots, labels, heldOut)[roots[i]] > 0;
  }

  lemma {:induction false} ANeighbour(tokens: seq<seq<Token>>, heldOut: nat, m: nat) returns (i: nat)
    requires heldOut < |tokens| && m <= |tokens| && m > if heldOut == 0 then 1 else 0
    ensures i < m && i != heldOut
    ensures forall j | 0 <= j < m && j != heldOut :: Jaccard(tokens[heldOut], tokens[j]) <= Jaccard(tokens[heldOut], tokens[i])
    decreases m
  {
    if m - 1 == if heldOut == 0 then 1 else 0 {
      i := m - 1;
    } else {
      i := ANeighbour(tokens, heldOut, m - 1);
      if m - 1 != heldOut && Jaccard(tokens[heldOut], tokens[m - 1]) > Jaccard(tokens[heldOut], tokens[i]) {
        i := m - 1;
      }
    }
  }

  lemma {:induction false} NeighbourCounts(tokens: seq<seq<Token>>, roots: seq<nat>, heldOut: nat, i: nat, m: nat)
    requires |roots| == |tokens| && heldOut < |tokens| && i < m <= |tokens| && IsNeighbour(tokens, heldOut, i)
    ensures NeighbourVotes(tokens, roots, heldOut, roots[i], m) > 0
    decreases m
  {
    if i < m - 1 {
      NeighbourCounts(tokens, roots, heldOut, i, m - 1);
    }
  }
}
