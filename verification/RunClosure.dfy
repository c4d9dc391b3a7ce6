/** What a run leaves behind: the units it names, the ones it skips, and the records it reports. */
module RunClosure {
  import opened Prelude
  import opened Journal
  import opened Runner

  /** A key reads only the records of earlier units. */
  lemma {:induction false} CacheKeyFrame(units: seq<Unit>, values: map<string, string>, a: Trials, b: Trials, i: nat)
    requires ValidRegistry(units) && i < |units|
    requires forall j | 0 <= j < i :: SameTrial(a, b, units[j].id)
    ensures CacheKey(units, values, a, i) == CacheKey(units, values, b, i)
    decreases i
  {
    forall d | d in units[i].dependsOn
      ensures SameTrial(a, b, d)
      ensures ExactPass(a, d, CacheKey(units, values, a, DependencyOf(units, i, d)))
         <==> ExactPass(b, d, CacheKey(units, values, b, DependencyOf(units, i, d)))
    {
      var p := DependencyOf(units, i, d);
      assert SameTrial(a, b, units[p].id);
      CacheKeyFrame(units, values, a, b, p);
    }
    if DependenciesPass(units, values, a, i) {
      assert DependencyDigests(a, units[i].dependsOn) == DependencyDigests(b, units[i].dependsOn);
    }
  }

  /** The unit at `i` holds a pass record under its current key. */
  ghost predicate Current(c: Context, trials: Trials, i: nat)
    requires ValidRegistry(c.units) && i < |c.units|
  {
    && PassRecorded(trials, c.units[i].id)
    && CacheKey(c.units, c.values, trials, i) == Some(trials[c.units[i].id].current.cacheKey)
  }

  lemma {:induction false} CurrentFrame(c: Context, a: Trials, b: Trials, i: nat)
    requires ValidRegistry(c.units) && i < |c.units|
    requires forall j | 0 <= j <= i :: SameTrial(a, b, c.units[j].id)
    ensures Current(c, a, i) <==> Current(c, b, i)
  {
    CacheKeyFrame(c.units, c.values, a, b, i);
    assert SameTrial(a, b, c.units[i].id);
  }

  /** A unit has a key exactly if its checkpoints have values and each dependency holds a current pass with its artifact. */
  lemma {:induction false} KeyExistsIff(c: Context, trials: Trials, i: nat)
    requires ValidRegistry(c.units) && i < |c.units|
    ensures CacheKey(c.units, c.values, trials, i).Some? <==>
            && (forall name | name in c.units[i].requiredCheckpoints :: name in c.values)
            && (forall d | d in c.units[i].dependsOn :: HasArtifact(trials, d) && Current(c, trials, DependencyOf(c.units, i, d)))
  {
  }

  /** What tells one unit's key from another's: the input, the checkpoint values, and the dependencies' keys and artifacts. */
  ghost predicate SameInputs(u: Unit, values: map<string, string>, trials: Trials, v: Unit, others: map<string, string>, stored: Trials)
    requires (forall name | name in u.requiredCheckpoints :: name in values) && HaveArtifacts(trials, u.dependsOn)
    requires (forall name | name in v.requiredCheckpoints :: name in others) && HaveArtifacts(stored, v.dependsOn)
  {
    && u.inputDigest == v.inputDigest
    && (forall name :: name in u.requiredCheckpoints <==> name in v.requiredCheckpoints)
    && (forall name | name in u.requiredCheckpoints :: values[name] == others[name])
    && (forall d :: d in u.dependsOn <==> d in v.dependsOn)
    && (forall d | d in u.dependsOn ::
          && trials[d].current.cacheKey == stored[d].current.cacheKey
          && trials[d].current.artifactDigest == stored[d].current.artifactDigest)
  }

  /** Over any registries, values and journals, two keys are equal exactly for the same inputs; the producer plays no part. */
  lemma {:induction false} KeysAgreeIff(c: Context, trials: Trials, i: nat, other: Context, stored: Trials, j: nat)
    requires ValidRegistry(c.units) && i < |c.units| && CacheKey(c.units, c.values, trials, i).Some?
    requires ValidRegistry(other.units) && j < |other.units| && CacheKey(other.units, other.values, stored, j).Some?
    ensures CacheKey(c.units, c.values, trials, i) == CacheKey(other.units, other.values, stored, j) <==>
            SameInputs(c.units[i], c.values, trials, other.units[j], other.values, stored)
  {
    KeyOfParts(c.units[i], c.values, trials, other.units[j], other.values, stored);
  }

  lemma {:induction false} MapsAgreeIff<K, V>(a: map<K, V>, b: map<K, V>)
    ensures a == b <==> (forall k :: k in a <==> k in b) && forall k | k in a && k in b :: a[k] == b[k]
  {
  }

  lemma {:induction false} KeyOfParts(u: Unit, values: map<string, string>, trials: Trials, v: Unit, others: map<string, string>, stored: Trials)
    requires (forall name | name in u.requiredCheckpoints :: name in values) && HaveArtifacts(trials, u.dependsOn)
    requires (forall name | name in v.requiredCheckpoints :: name in others) && HaveArtifacts(stored, v.dependsOn)
    ensures SemanticKey(values, u, DependencyDigests(trials, u.dependsOn)) == SemanticKey(others, v, DependencyDigests(stored, v.dependsOn)) <==>
            SameInputs(u, values, trials, v, others, stored)
  {
    var a, b := CheckpointValues(values, u.requiredCheckpoints), CheckpointValues(others, v.requiredCheckpoints);
    var p, q := DependencyDigests(trials, u.dependsOn), DependencyDigests(stored, v.dependsOn);
    MapsAgreeIff(a, b);
    MapsAgreeIff(p, q);
    assert forall name :: name in a <==> name in u.requiredCheckpoints;
    assert forall name :: name in b <==> name in v.requiredCheckpoints;
    assert forall d :: d in p <==> d in u.dependsOn;
    assert forall d :: d in q <==> d in v.dependsOn;
    assert a == b <==> (forall name :: name in u.requiredCheckpoints <==> name in v.requiredCheckpoints)
                       && forall name | name in u.requiredCheckpoints && name in v.requiredCheckpoints :: values[name] == others[name];
    assert p == q <==> (forall d :: d in u.dependsOn <==> d in v.dependsOn)
                       && forall d | d in u.dependsOn && d in v.dependsOn ::
                            trials[d].current.cacheKey == stored[d].current.cacheKey
                            && trials[d].current.artifactDigest == stored[d].current.artifactDigest;
  }

  /** The three ways a visit can leave the unit it looks at. */
  ghost predicate Passed(st: RunState, id: string) {
    id in st.reused || (id in st.executed && PassRecorded(st.trials, id))
  }

  ghost predicate Fell(st: RunState, id: string) {
    id in st.executed && !PassRecorded(st.trials, id)
  }

  /** An execution leaves exactly one record changed: that of its unit, under the key it was given. */
  lemma {:induction false} ExecuteShape(c: Context, u: Unit, key: Digest, st: RunState)
    requires u.id in c.handlers
    ensures
      var out := Execute(c, u, key, st);
      && u.id in out.Stored()
      && out.Stored() == st.trials[u.id := out.Stored()[u.id]]
      && out.Stored()[u.id].current.cacheKey == key
      && (out.Raised? <==> Ending(c, u, key, st.trials).None?)
      && (out.Raised? ==> out.Stored()[u.id].current.status == Running)
      && (out.Returned? ==>
        var (status, payload) := Ending(c, u, key, st.trials).value;
        && out.Stored()[u.id].current.status == status && status.Terminal()
        && out.Stored()[u.id].current.artifactDigest == Some(PayloadDigest(payload)))
  {
    var resuming := u.id in st.trials && st.trials[u.id].current.cacheKey == key;
    var begun := After(st.trials, Begin(u.id, c.producerSha, key, Note(resuming)));
    CheckpointsKeepRunning(begun, u.id, c.handlers[u.id](begun[u.id]).checkpoints);
  }

  ghost predicate DependencyFailed(c: Context, st: RunState, i: nat)
    requires i < |c.units|
  {
    exists d | d in c.units[i].dependsOn :: d in st.failed
  }

  ghost predicate DependencyUnrecorded(c: Context, trials: Trials, i: nat)
    requires i < |c.units|
  {
    exists d | d in c.units[i].dependsOn :: !PassRecorded(trials, d)
  }

  ghost predicate ReusedInto(u: Unit, st: RunState, after: RunState) {
    && PassRecorded(st.trials, u.id)
    && after == st.(records := st.records + [st.trials[u.id]], reused := st.reused + [u.id])
  }

  /** The unit was executed under `key`: only its own record changed, and it is terminal. */
  ghost predicate ExecutedInto(u: Unit, key: Digest, st: RunState, after: RunState) {
    && u.id in after.trials
    && after.trials == st.trials[u.id := after.trials[u.id]]
    && after.trials[u.id].current.cacheKey == key
    && after.trials[u.id].current.status.Terminal()
    && after.trials[u.id].current.artifactDigest.Some?
    && after.executed == st.executed + [u.id] && after.reused == st.reused && after.skipped == st.skipped
    && after.failed == if PassRecorded(after.trials, u.id) then st.failed else st.failed + {u.id}
  }

  /** The four ways a visit of the unit at `i` can return. */
  ghost predicate Stepped(c: Context, i: nat, st: RunState, after: RunState)
    requires ValidRegistry(c.units) && i < |c.units|
  {
    var u, key := c.units[i], CacheKey(c.units, c.values, st.trials, i);
    || (u.id !in c.selected && after == st)
    || (u.id in c.selected && after == Skip(u, st)
        && (DependencyFailed(c, st, i) || DependencyUnrecorded(c, st.trials, i)))
    || (u.id in c.selected && !DependencyFailed(c, st, i) && key.Some?
        && ReusedInto(u, st, after) && key == Some(st.trials[u.id].current.cacheKey))
    || (u.id in c.selected && !DependencyFailed(c, st, i) && key.Some? && ExecutedInto(u, key.value, st, after))
  }

  lemma {:induction false} VisitSteps(c: Context, i: nat, st: RunState)
    requires ValidRegistry(c.units) && i < |c.units|
    requires Visit(c, i, st).Returned?
    ensures Stepped(c, i, st, Visit(c, i, st).state)
  {
    var u, key := c.units[i], CacheKey(c.units, c.values, st.trials, i);
    if key.Some? && u.id in c.handlers {
      ExecuteShape(c, u, key.value, st);
    }
  }

  /** How often a run names a unit, over its three lists. */
  ghost function Times(st: RunState, id: string): nat {
    multiset(st.executed)[id] + multiset(st.reused)[id] + multiset(st.skipped)[id]
  }

  ghost predicate Listed(c: Context, n: nat, st: RunState)
    requires n <= |c.units|
  {
    && (forall j | 0 <= j < |c.units| ::
          Times(st, c.units[j].id) == if j < n && c.units[j].id in c.selected then 1 else 0)
    && (forall j | 0 <= j < |c.units| ::
          c.units[j].id in st.failed <==> c.units[j].id in st.skipped || Fell(st, c.units[j].id))
  }

  ghost predicate PassedIsCurrent(c: Context, st: RunState)
    requires ValidRegistry(c.units)
  {
    forall j | 0 <= j < |c.units| :: Passed(st, c.units[j].id) ==> Current(c, st.trials, j)
  }

  lemma {:induction false} DistinctUnits(units: seq<Unit>, i: nat, j: nat)
    requires ValidRegistry(units) && i < |units| && j < |units| && i != j
    ensures units[i].id != units[j].id
  {
    assert Ids(units)[i] != Ids(units)[j];
  }

  /** A step leaves the records and the standing of every other unit as they were. */
  lemma {:induction false} StepFrame(c: Context, n: nat, st: RunState, after: RunState, j: nat)
    requires ValidRegistry(c.units) && n < |c.units| && j < |c.units| && j != n
    requires Stepped(c, n, st, after)
    ensures c.units[j].id != c.units[n].id
    ensures SameTrial(st.trials, after.trials, c.units[j].id)
    ensures Times(after, c.units[j].id) == Times(st, c.units[j].id)
    ensures Passed(after, c.units[j].id) <==> Passed(st, c.units[j].id)
    ensures Fell(after, c.units[j].id) <==> Fell(st, c.units[j].id)
    ensures c.units[j].id in after.failed <==> c.units[j].id in st.failed
    ensures c.units[j].id in after.skipped <==> c.units[j].id in st.skipped
  {
    DistinctUnits(c.units, j, n);
  }

  /** A step lists its own unit at most once, and no other. */
  lemma {:induction false} StepLists(c: Context, n: nat, st: RunState, after: RunState)
    requires ValidRegistry(c.units) && n < |c.units| && Listed(c, n, st)
    requires Stepped(c, n, st, after)
    ensures Listed(c, n + 1, after)
  {
    assert Times(st, c.units[n].id) == 0;
    assert Times(after, c.units[n].id) == if c.units[n].id in c.selected then 1 else 0;
    forall j | 0 <= j < |c.units| && j != n
      ensures Times(after, c.units[j].id) == Times(st, c.units[j].id)
      ensures c.units[j].id in after.failed <==> c.units[j].id in after.skipped || Fell(after, c.units[j].id)
    {
      StepFrame(c, n, st, after, j);
    }
  }

  lemma {:induction false} StepKeepsCurrent(c: Context, n: nat, st: RunState, after: RunState)
    requires ValidRegistry(c.units) && n < |c.units|
    requires Listed(c, n, st) && PassedIsCurrent(c, st)
    requires Stepped(c, n, st, after)
    ensures PassedIsCurrent(c, after)
  {
    forall j | 0 <= j < |c.units| && j != n
      ensures c.units[j].id != c.units[n].id && SameTrial(st.trials, after.trials, c.units[j].id)
    {
      StepFrame(c, n, st, after, j);
    }
    forall j | 0 <= j < |c.units| && Passed(after, c.units[j].id)
      ensures Current(c, after.trials, j)
    {
      if j != n {
        StepFrame(c, n, st, after, j);
        assert Times(st, c.units[j].id) == 1;
        CurrentFrame(c, st.trials, after.trials, j);
      } else {
        assert Times(st, c.units[n].id) == 0;
        CacheKeyFrame(c.units, c.values, st.trials, after.trials, n);
      }
    }
  }

  /** Every unit visited is listed, and what passed is current. */
  ghost predicate Reports(c: Context, n: nat, st: RunState) {
    n <= |c.units| && ValidRegistry(c.units) && Listed(c, n, st) && PassedIsCurrent(c, st)
  }

  lemma {:induction false} VisitReports(c: Context, n: nat, st: RunState, after: RunState)
    requires ValidRegistry(c.units) && n < |c.units| && Reports(c, n, st) && Visit(c, n, st) == Returned(after)
    ensures Reports(c, n + 1, after)
  {
    VisitSteps(c, n, st);
    StepLists(c, n, st, after);
    StepKeepsCurrent(c, n, st, after);
  }

  /**
   * Whatever is selected and whatever the journal held, on return each selected unit is named
   * exactly once as executed, reused or skipped, and each unit reported as passed holds a pass
   * record under its current key.
   */
  lemma {:induction false} RunReports(c: Context, n: nat, trials: Trials)
    requires ValidRegistry(c.units) && n <= |c.units|
    requires RunPrefix(c, n, trials).Returned?
    ensures Listed(c, n, RunPrefix(c, n, trials).state)
    ensures PassedIsCurrent(c, RunPrefix(c, n, trials).state)
  {
    forall k: nat, st | k < |c.units| && Reports(c, k, st) && Visit(c, k, st).Returned?
      ensures Reports(c, k + 1, Visit(c, k, st).state)
    {
      VisitReports(c, k, st, Visit(c, k, st).state);
    }
    RunInvariant(c, n, trials, (k: nat, st: RunState) => Reports(c, k, st));
  }

  // ---------------------------------------------------------------------------------------------
  // Full runs: every unit is selected.

  ghost predicate Full(c: Context) {
    c.selected == set id | id in Ids(c.units)
  }

  ghost predicate SkipsFollowFailures(c: Context, n: nat, st: RunState)
    requires n <= |c.units|
  {
    forall j | 0 <= j < n :: c.units[j].id in st.skipped <==> DependencyFailed(c, st, j)
  }

  /** With every unit selected, dependencies that did not fail have all passed. */
  lemma {:induction false} UnfailedDependencyPassed(c: Context, n: nat, st: RunState, d: string)
    requires ValidRegistry(c.units) && n < |c.units| && Full(c)
    requires Listed(c, n, st) && PassedIsCurrent(c, st)
    requires d in c.units[n].dependsOn && d !in st.failed
    ensures Passed(st, d) && PassRecorded(st.trials, d)
  {
    var p := DependencyOf(c.units, n, d);
    assert Ids(c.units)[p] == d;
    assert Times(st, c.units[p].id) == 1;
    assert Current(c, st.trials, p);
  }

  lemma {:induction false} StepSkips(c: Context, n: nat, st: RunState, after: RunState)
    requires ValidRegistry(c.units) && n < |c.units| && Full(c)
    requires Listed(c, n, st) && PassedIsCurrent(c, st) && SkipsFollowFailures(c, n, st)
    requires Stepped(c, n, st, after)
    ensures SkipsFollowFailures(c, n + 1, after)
  {
    var u := c.units[n];
    assert Ids(c.units)[n] == u.id;
    assert Times(st, u.id) == 0;
    if !DependencyFailed(c, st, n) {
      forall d | d in u.dependsOn
        ensures PassRecorded(st.trials, d)
      {
        UnfailedDependencyPassed(c, n, st, d);
      }
    }
    forall j | 0 <= j < n + 1
      ensures c.units[j].id in after.skipped <==> DependencyFailed(c, after, j)
    {
      forall d | d in c.units[j].dependsOn
        ensures d in after.failed <==> d in st.failed
      {
        var p := DependencyOf(c.units, j, d);
        StepFrame(c, n, st, after, p);
      }
      if j < n {
        StepFrame(c, n, st, after, j);
      }
    }
  }

  lemma {:induction false} FullRunSkips(c: Context, n: nat, trials: Trials)
    requires ValidRegistry(c.units) && n <= |c.units| && Full(c)
    requires RunPrefix(c, n, trials).Returned?
    ensures SkipsFollowFailures(c, n, RunPrefix(c, n, trials).state)
    decreases n
  {
    if n > 0 {
      FullRunSkips(c, n - 1, trials);
      RunReports(c, n - 1, trials);
      VisitSteps(c, n - 1, RunPrefix(c, n - 1, trials).state);
      StepSkips(c, n - 1, RunPrefix(c, n - 1, trials).state, RunPrefix(c, n, trials).state);
    }
  }

  /** Some chain of dependencies leads from the unit at `i` to a unit in `roots`. */
  ghost predicate Downstream(units: seq<Unit>, roots: set<string>, i: nat)
    requires ValidRegistry(units) && i < |units|
    decreases i
  {
    exists d | d in units[i].dependsOn :: d in roots || Downstream(units, roots, DependencyOf(units, i, d))
  }

  ghost function Fallen(st: RunState): set<string> {
    set id | id in st.executed && !PassRecorded(st.trials, id)
  }

  lemma {:induction false} FailedIsDownstream(c: Context, st: RunState, i: nat)
    requires ValidRegistry(c.units) && i < |c.units|
    requires Listed(c, |c.units|, st) && SkipsFollowFailures(c, |c.units|, st)
    ensures c.units[i].id in st.skipped <==> Downstream(c.units, Fallen(st), i)
    decreases i
  {
    forall d | d in c.units[i].dependsOn
      ensures d in st.failed <==> d in Fallen(st) || Downstream(c.units, Fallen(st), DependencyOf(c.units, i, d))
    {
      FailedIsDownstream(c, st, DependencyOf(c.units, i, d));
    }
  }

  /** `a` is a proper ancestor of the unit at `i`. */
  ghost predicate Ancestor(units: seq<Unit>, a: nat, i: nat)
    requires ValidRegistry(units) && i < |units|
    decreases i
  {
    exists d | d in units[i].dependsOn :: DependencyOf(units, i, d) == a || Ancestor(units, a, DependencyOf(units, i, d))
  }

  lemma {:induction false} AncestorsAreCurrent(c: Context, trials: Trials, a: nat, i: nat)
    requires ValidRegistry(c.units) && i < |c.units|
    requires CacheKey(c.units, c.values, trials, i).Some? && Ancestor(c.units, a, i)
    ensures a < |c.units| && Current(c, trials, a) && trials[c.units[a].id].current.artifactDigest.Some?
    decreases i
  {
    var d :| d in c.units[i].dependsOn && (DependencyOf(c.units, i, d) == a || Ancestor(c.units, a, DependencyOf(c.units, i, d)));
    var p := DependencyOf(c.units, i, d);
    assert ExactPass(trials, d, CacheKey(c.units, c.values, trials, p));
    if p != a {
      AncestorsAreCurrent(c, trials, a, p);
    }
  }

  /**
   * Closure of a full run over any journal: executed, reused and skipped partition the units;
   * skipped is exactly what lies downstream of the executed units that did not pass; and a passed
   * unit stands on an ancestor closure of pass records with current keys.
   */
  lemma {:induction false} FullRunClosure(c: Context, trials: Trials)
    requires ValidRegistry(c.units) && Full(c)
    requires RunAll(c, trials).Returned?
    ensures
      var st := RunAll(c, trials).state;
      forall i | 0 <= i < |c.units| ::
        && Times(st, c.units[i].id) == 1
        && (c.units[i].id in st.skipped <==> Downstream(c.units, Fallen(st), i))
        && (Passed(st, c.units[i].id) ==>
          && Current(c, st.trials, i)
          && forall a | 0 <= a < |c.units| && Ancestor(c.units, a, i) ::
               Current(c, st.trials, a) && HasArtifact(st.trials, c.units[a].id))
  {
    var n := |c.units|;
    var st := RunAll(c, trials).state;
    RunReports(c, n, trials);
    FullRunSkips(c, n, trials);
    forall i | 0 <= i < n
      ensures Times(st, c.units[i].id) == 1
      ensures c.units[i].id in st.skipped <==> Downstream(c.units, Fallen(st), i)
      ensures Passed(st, c.units[i].id) ==> Current(c, st.trials, i)
    {
      assert Ids(c.units)[i] == c.units[i].id;
      FailedIsDownstream(c, st, i);
    }
    forall i, a | 0 <= i < n && 0 <= a < n && Passed(st, c.units[i].id) && Ancestor(c.units, a, i)
      ensures Current(c, st.trials, a) && HasArtifact(st.trials, c.units[a].id)
    {
      AncestorsAreCurrent(c, st.trials, a, i);
    }
  }

  // ---------------------------------------------------------------------------------------------
  // Running again.

  ghost predicate AllPassed(c: Context, st: RunState) {
    forall i | 0 <= i < |c.units| :: Passed(st, c.units[i].id)
  }

  /** The first `n` units were all reused, in order, and nothing was written. */
  ghost predicate AllReused(c: Context, n: nat, trials: Trials, st: RunState)
    requires n <= |c.units|
  {
    && st.trials == trials && st.executed == [] && st.skipped == [] && st.failed == {}
    && st.reused == Ids(c.units)[..n]
  }

  lemma {:induction false} CurrentUnitIsReused(c: Context, n: nat, trials: Trials, st: RunState)
    requires ValidRegistry(c.units) && n < |c.units| && Full(c)
    requires Current(c, trials, n) && AllReused(c, n, trials, st)
    ensures Visit(c, n, st).Returned? && AllReused(c, n + 1, trials, Visit(c, n, st).state)
  {
    assert Ids(c.units)[n] == c.units[n].id;
    assert Ids(c.units)[..n + 1] == Ids(c.units)[..n] + [c.units[n].id];
  }

  /** A full run that passed every unit leaves them all current. */
  lemma {:induction false} AllPassedIsCurrent(c: Context, trials: Trials, first: RunState)
    requires ValidRegistry(c.units) && RunAll(c, trials) == Returned(first) && AllPassed(c, first)
    ensures forall i | 0 <= i < |c.units| :: Current(c, first.trials, i)
  {
    RunReports(c, |c.units|, trials);
    forall i | 0 <= i < |c.units|
      ensures Current(c, first.trials, i)
    {
      assert Passed(first, c.units[i].id);
    }
  }

  lemma {:induction false} CurrentJournalIsReused(c: Context, trials: Trials)
    requires ValidRegistry(c.units) && Full(c)
    requires forall i | 0 <= i < |c.units| :: Current(c, trials, i)
    ensures RunPrefix(c, |c.units|, trials).Returned?
    ensures AllReused(c, |c.units|, trials, RunPrefix(c, |c.units|, trials).state)
  {
    ghost var P := (k: nat, st: RunState) => k <= |c.units| && AllReused(c, k, trials, st);
    forall k: nat, st | k < |c.units| && P(k, st)
      ensures Visit(c, k, st).Returned? && P(k + 1, Visit(c, k, st).state)
    {
      CurrentUnitIsReused(c, k, trials, st);
    }
    RunProgress(c, |c.units|, trials, P);
  }

  /**
   * After a full run in which every unit passed, a second full run over the same registry and
   * values executes nothing and leaves the journal as it is, whatever handlers it brings.
   */
  lemma {:induction false} SecondRunIsQuiet(c: Context, again: Context, trials: Trials, first: RunState)
    requires ValidRegistry(c.units) && Full(c) && Full(again)
    requires again.units == c.units && again.values == c.values
    requires RunAll(c, trials) == Returned(first) && AllPassed(c, first)
    ensures RunAll(again, first.trials).Returned?
    ensures AllReused(again, |again.units|, first.trials, RunAll(again, first.trials).state)
  {
    AllPassedIsCurrent(c, trials, first);
    forall i | 0 <= i < |again.units|
      ensures Current(again, first.trials, i)
    {
      assert Current(c, first.trials, i);
    }
    CurrentJournalIsReused(again, first.trials);
  }

  // ---------------------------------------------------------------------------------------------
  // What every run keeps of the journal.

  ghost predicate WellKept(trials: Trials) {
    forall id | id in trials :: Lineage(trials[id])
  }

  lemma {:induction false} CheckpointsKeepLineage(trials: Trials, id: string, writes: seq<CheckpointWrite>)
    requires WellKept(trials)
    ensures WellKept(WriteCheckpoints(trials, id, writes))
    decreases |writes|
  {
    if writes != [] {
      var n := |writes| - 1;
      CheckpointsKeepLineage(trials, id, writes[..n]);
      AfterKeepsLineage(WriteCheckpoints(trials, id, writes[..n]),
                        Checkpoint(id, writes[n].name, writes[n].observation, writes[n].payload));
    }
  }

  lemma {:induction false} ExecuteKeepsLineage(c: Context, u: Unit, key: Digest, st: RunState)
    requires u.id in c.handlers && WellKept(st.trials)
    ensures WellKept(Execute(c, u, key, st).Stored())
  {
    var resuming := u.id in st.trials && st.trials[u.id].current.cacheKey == key;
    var begin := Begin(u.id, c.producerSha, key, Note(resuming));
    var begun := After(st.trials, begin);
    AfterKeepsLineage(st.trials, begin);
    CheckpointsKeepLineage(begun, u.id, c.handlers[u.id](begun[u.id]).checkpoints);
    var ending := Ending(c, u, key, st.trials);
    if ending.Some? {
      AfterKeepsLineage(Worked(c, u, key, st.trials), Finish(u.id, ending.value.0, ending.value.1));
    }
  }

  /** A run, on return or when it raises, leaves every record with a well-formed lineage. */
  lemma {:induction false} PrefixKeepsLineage(c: Context, n: nat, trials: Trials)
    requires ValidRegistry(c.units) && n <= |c.units| && WellKept(trials)
    ensures WellKept(RunPrefix(c, n, trials).Stored())
    decreases n
  {
    if n > 0 {
      PrefixKeepsLineage(c, n - 1, trials);
      if RunPrefix(c, n - 1, trials).Returned? {
        var st := RunPrefix(c, n - 1, trials).state;
        var key := CacheKey(c.units, c.values, st.trials, n - 1);
        if key.Some? && c.units[n - 1].id in c.handlers {
          ExecuteKeepsLineage(c, c.units[n - 1], key.value, st);
        }
      }
    }
  }

  lemma {:induction false} RunKeepsLineage(c: Context, trials: Trials)
    requires ValidRegistry(c.units) && WellKept(trials)
    ensures WellKept(RunAll(c, trials).Stored())
  {
    PrefixKeepsLineage(c, |c.units|, trials);
  }

  /** `id` holds a verdict under its present key that a run may not replace. */
  ghost predicate Judged(trials: Trials, id: string, key: Digest) {
    id in trials && trials[id].current.cacheKey == key && !trials[id].current.status.Resumable()
  }

  ghost predicate NoneRetried(c: Context, n: nat, trials: Trials, st: RunState)
    requires n <= |c.units|
  {
    && (forall j | n <= j < |c.units| :: SameTrial(trials, st.trials, c.units[j].id) && c.units[j].id !in st.executed)
    && (forall j | 0 <= j < n && c.units[j].id in st.executed ::
          c.units[j].id in st.trials && !Judged(trials, c.units[j].id, st.trials[c.units[j].id].current.cacheKey))
  }

  lemma {:induction false} VisitRetriesNothing(c: Context, n: nat, trials: Trials, st: RunState)
    requires ValidRegistry(c.units) && n < |c.units|
    requires NoneRetried(c, n, trials, st) && Visit(c, n, st).Returned?
    ensures NoneRetried(c, n + 1, trials, Visit(c, n, st).state)
  {
    var u, after := c.units[n], Visit(c, n, st).state;
    VisitSteps(c, n, st);
    assert SameTrial(trials, st.trials, u.id);
    assert u.id in after.executed ==> !Judged(st.trials, u.id, after.trials[u.id].current.cacheKey);
    forall j | 0 <= j < |c.units| && j != n
      ensures SameTrial(st.trials, after.trials, c.units[j].id)
      ensures c.units[j].id in after.executed <==> c.units[j].id in st.executed
    {
      DistinctUnits(c.units, j, n);
    }
  }

  /** The record under `id` is the one it was, or it was a verdict under another key. */
  ghost predicate VerdictStands(trials: Trials, stored: Trials, id: string) {
    id in trials && !trials[id].current.status.Resumable() ==>
      id in stored && (stored[id] == trials[id] || stored[id].current.cacheKey != trials[id].current.cacheKey)
  }

  lemma {:induction false} VisitLeavesVerdict(c: Context, n: nat, st: RunState, id: string)
    requires ValidRegistry(c.units) && n < |c.units|
    ensures id != c.units[n].id ==> SameTrial(st.trials, Visit(c, n, st).Stored(), id)
    ensures VerdictStands(st.trials, Visit(c, n, st).Stored(), id)
  {
    var u, key := c.units[n], CacheKey(c.units, c.values, st.trials, n);
    if key.Some? && u.id in c.handlers {
      ExecuteShape(c, u, key.value, st);
    }
  }

  ghost predicate Unvisited(c: Context, n: nat, id: string)
    requires n <= |c.units|
  {
    forall j | 0 <= j < n :: c.units[j].id != id
  }

  lemma {:induction false} OneMoreLeavesVerdict(c: Context, n: nat, trials: Trials, st: RunState, id: string)
    requires ValidRegistry(c.units) && n < |c.units|
    requires (Unvisited(c, n, id) ==> SameTrial(trials, st.trials, id)) && VerdictStands(trials, st.trials, id)
    ensures Unvisited(c, n + 1, id) ==> SameTrial(trials, Visit(c, n, st).Stored(), id)
    ensures VerdictStands(trials, Visit(c, n, st).Stored(), id)
  {
    VisitLeavesVerdict(c, n, st, id);
    if id == c.units[n].id {
      forall j | 0 <= j < n ensures c.units[j].id != id {
        DistinctUnits(c.units, j, n);
      }
    }
  }

  lemma {:induction false} PrefixLeavesVerdict(c: Context, n: nat, trials: Trials, id: string)
    requires ValidRegistry(c.units) && n <= |c.units|
    ensures Unvisited(c, n, id) ==> SameTrial(trials, RunPrefix(c, n, trials).Stored(), id)
    ensures VerdictStands(trials, RunPrefix(c, n, trials).Stored(), id)
    decreases n
  {
    if n > 0 {
      PrefixLeavesVerdict(c, n - 1, trials, id);
      if RunPrefix(c, n - 1, trials).Returned? {
        OneMoreLeavesVerdict(c, n - 1, trials, RunPrefix(c, n - 1, trials).state, id);
      }
    }
  }

  /**
   * No run, whether it returns or raises, replaces a pass, a metric failure or a blocked verdict by a
   * record under the same key; and one that returns executes no unit under a key it is judged for.
   */
  lemma {:induction false} VerdictsAreNeverRetried(c: Context, trials: Trials, id: string)
    requires ValidRegistry(c.units)
    ensures VerdictStands(trials, RunAll(c, trials).Stored(), id)
    ensures id !in Ids(c.units) ==> SameTrial(trials, RunAll(c, trials).Stored(), id)
    ensures RunAll(c, trials).Returned? && id in Ids(c.units) && id in RunAll(c, trials).state.executed ==>
              id in RunAll(c, trials).Stored() && !Judged(trials, id, RunAll(c, trials).Stored()[id].current.cacheKey)
  {
    PrefixLeavesVerdict(c, |c.units|, trials, id);
    forall j | 0 <= j < |c.units| ensures c.units[j].id in Ids(c.units) {
      assert Ids(c.units)[j] == c.units[j].id;
    }
    if RunAll(c, trials).Returned? && id in Ids(c.units) && id in RunAll(c, trials).state.executed {
      ExecutedWasNotJudged(c, trials, id);
    }
  }

  lemma {:induction false} ExecutedWasNotJudged(c: Context, trials: Trials, id: string)
    requires ValidRegistry(c.units) && RunAll(c, trials).Returned? && id in Ids(c.units)
    requires id in RunAll(c, trials).state.executed
    ensures
      var stored := RunAll(c, trials).state.trials;
      id in stored && !Judged(trials, id, stored[id].current.cacheKey)
  {
    ghost var P := (k: nat, st: RunState) => k <= |c.units| && NoneRetried(c, k, trials, st);
    forall k: nat, st | k < |c.units| && P(k, st) && Visit(c, k, st).Returned?
      ensures P(k + 1, Visit(c, k, st).state)
    {
      VisitRetriesNothing(c, k, trials, st);
    }
    RunInvariant(c, |c.units|, trials, P);
    var j :| 0 <= j < |c.units| && Ids(c.units)[j] == id;
  }
}
