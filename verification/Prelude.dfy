/** Shared result types and small facts about sequences. */
module Prelude {

  datatype Option<+T> = None | Some(value: T)

  /** A governance error carries no value: every message string is left out of the model. */
  datatype Result<+T> = Success(value: T) | Failure

  /** The last element of a sequence splits it. */
  lemma SplitLast<T>(s: seq<T>)
    requires s != []
    ensures s == s[..|s| - 1] + [s[|s| - 1]]
  {
  }

  function Elements<T>(s: seq<T>): set<T> {
    set x | x in s
  }

  ghost predicate Distinct<T>(s: seq<T>) {
    forall i, j | 0 <= i < j < |s| :: s[i] != s[j]
  }

  /** A sequence has as many elements as places exactly when no element repeats. */
  lemma {:induction false} CountDistinct<T>(s: seq<T>)
    ensures |Elements(s)| <= |s|
    ensures |Elements(s)| == |s| <==> Distinct(s)
    decreases |s|
  {
    if s != [] {
      var front, last := s[..|s| - 1], s[|s| - 1];
      CountDistinct(front);
      SplitLast(s);
      assert Elements(s) == Elements(front) + {last};
      if last in front {
        var i :| 0 <= i < |front| && front[i] == last;
        assert s[i] == s[|s| - 1];
      } else {
        assert Distinct(s) <==> Distinct(front);
      }
    }
  }

  /** A `Counter`: a key that was never counted stands at zero. */
  function Lookup<K>(m: map<K, nat>, k: K): nat {
    if k in m then m[k] else 0
  }

  /** The training fold of a leave-one-out loop: every case but the held-out one, in order. */
  function Training(n: nat, heldOut: nat): (fold: seq<nat>)
    ensures forall k | 0 <= k < |fold| :: fold[k] < n
    ensures Distinct(fold)
    ensures forall i :: i in fold <==> 0 <= i < n && i != heldOut
    ensures |fold| == if heldOut < n then n - 1 else n
  {
    if n == 0 then [] else Training(n - 1, heldOut) + if n - 1 == heldOut then [] else [n - 1]
  }

  lemma {:induction false} Member<T>(s: set<T>) returns (x: T)
    requires s != {}
    ensures x in s
  {
    x :| x in s;
  }

  /** Induction over the natural numbers up to `n`. */
  lemma {:induction false} Induction(n: nat, p: nat -> bool)
    requires p(0)
    requires forall k: nat | k < n && p(k) :: p(k + 1)
    ensures p(n)
    decreases n
  {
    if n > 0 {
      Induction(n - 1, p);
    }
  }
}
