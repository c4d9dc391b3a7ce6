/**
 * The incremental run against the run from scratch. `Artifact` stands for what the handlers
 * compute: the payload of a passing unit is a function of the unit and its semantic key. Nothing
 * else is assumed of the handlers: they may raise, report failure or write checkpoints at will.
 */
module Incremental {
  import opened Prelude
  import opened Journal
  import opened Runner
  import opened RunClosure

  type Artifact = (string, Digest) -> Payload

  /** Every pass record names the artifact its unit has under its key. */
  ghost predicate Sound(made: Artifact, trials: Trials) {
    forall id | id in trials && trials[id].current.status == Pass ::
      trials[id].current.artifactDigest == Some(PayloadDigest(made(id, trials[id].current.cacheKey)))
  }

  ghost predicate Deterministic(made: Artifact, c: Context) {
    forall id, running: Record, payload | id in c.handlers && c.handlers[id](running).result == Reports(Pass, payload) ::
      payload == made(id, running.current.cacheKey)
  }

  /** Every dependency of the unit at `i` has an ideal key. */
  ghost predicate IdealKeysExist(made: Artifact, units: seq<Unit>, values: map<string, string>, i: nat)
    requires ValidRegistry(units) && i < |units|
    decreases i, 0
  {
    forall d | d in units[i].dependsOn :: IdealKey(made, units, values, DependencyOf(units, i, d)).Some?
  }

  ghost function IdealDigests(made: Artifact, units: seq<Unit>, values: map<string, string>, i: nat): map<string, Digest>
    requires ValidRegistry(units) && i < |units| && IdealKeysExist(made, units, values, i)
    decreases i, 1
  {
    map d | d in units[i].dependsOn ::
      var key := IdealKey(made, units, values, DependencyOf(units, i, d)).value;
      ArtifactDigest(key, PayloadDigest(made(d, key)))
  }

  /** The key the unit at `i` has when every ancestor has been computed afresh. */
  ghost function IdealKey(made: Artifact, units: seq<Unit>, values: map<string, string>, i: nat): Option<Digest>
    requires ValidRegistry(units) && i < |units|
    decreases i, 2
  {
    if IdealKeysExist(made, units, values, i) then SemanticKey(values, units[i], IdealDigests(made, units, values, i)) else None
  }

  /** A dependency that passed exactly is digested as the ideal record of its unit. */
  lemma {:induction false} DependencyIsDigested(made: Artifact, units: seq<Unit>, values: map<string, string>, trials: Trials, i: nat, d: string)
    requires ValidRegistry(units) && i < |units| && Sound(made, trials)
    requires CacheKey(units, values, trials, i).Some? && d in units[i].dependsOn
    ensures d in trials && HaveArtifacts(trials, units[i].dependsOn)
    ensures CacheKey(units, values, trials, DependencyOf(units, i, d)) == Some(trials[d].current.cacheKey)
    ensures DependencyDigests(trials, units[i].dependsOn)[d]
         == ArtifactDigest(trials[d].current.cacheKey, PayloadDigest(made(d, trials[d].current.cacheKey)))
  {
    assert DependenciesPass(units, values, trials, i);
    assert ExactPass(trials, d, CacheKey(units, values, trials, DependencyOf(units, i, d)));
  }

  /** A dependency that stands under its ideal key has the ideal digest. */
  lemma {:induction false} DigestIsIdeal(made: Artifact, units: seq<Unit>, values: map<string, string>, trials: Trials, i: nat, d: string)
    requires ValidRegistry(units) && i < |units| && Sound(made, trials)
    requires CacheKey(units, values, trials, i).Some? && d in units[i].dependsOn && d in trials
    requires IdealKeysExist(made, units, values, i)
    requires IdealKey(made, units, values, DependencyOf(units, i, d)) == Some(trials[d].current.cacheKey)
    ensures HaveArtifacts(trials, units[i].dependsOn)
    ensures DependencyDigests(trials, units[i].dependsOn)[d] == IdealDigests(made, units, values, i)[d]
  {
    DependencyIsDigested(made, units, values, trials, i, d);
  }

  lemma {:induction false} DigestsAreIdeal(made: Artifact, units: seq<Unit>, values: map<string, string>, trials: Trials, i: nat)
    requires ValidRegistry(units) && i < |units| && Sound(made, trials)
    requires CacheKey(units, values, trials, i).Some? && IdealKeysExist(made, units, values, i)
    requires HaveArtifacts(trials, units[i].dependsOn)
    requires forall d | d in units[i].dependsOn ::
               d in trials && IdealKey(made, units, values, DependencyOf(units, i, d)) == Some(trials[d].current.cacheKey)
    ensures DependencyDigests(trials, units[i].dependsOn) == IdealDigests(made, units, values, i)
  {
    var x, y := DependencyDigests(trials, units[i].dependsOn), IdealDigests(made, units, values, i);
    forall d | d in units[i].dependsOn
      ensures x[d] == y[d]
    {
      DigestIsIdeal(made, units, values, trials, i, d);
    }
    assert x.Keys == y.Keys;
  }

  /** Where every dependency stands under its ideal key, so does the unit. */
  lemma {:induction false} IdealFromDependencies(made: Artifact, units: seq<Unit>, values: map<string, string>, trials: Trials, i: nat)
    requires ValidRegistry(units) && i < |units| && Sound(made, trials)
    requires CacheKey(units, values, trials, i).Some? && IdealKeysExist(made, units, values, i)
    requires forall d | d in units[i].dependsOn ::
               d in trials && IdealKey(made, units, values, DependencyOf(units, i, d)) == Some(trials[d].current.cacheKey)
    ensures IdealKey(made, units, values, i) == CacheKey(units, values, trials, i)
  {
    assert HaveArtifacts(trials, units[i].dependsOn) by {
      assert DependenciesPass(units, values, trials, i);
    }
    DigestsAreIdeal(made, units, values, trials, i);
  }

  /** In a sound journal a key that exists is the ideal key. */
  lemma {:induction false} KeyIsIdeal(made: Artifact, units: seq<Unit>, values: map<string, string>, trials: Trials, i: nat)
    requires ValidRegistry(units) && i < |units| && Sound(made, trials)
    requires CacheKey(units, values, trials, i).Some?
    ensures IdealKey(made, units, values, i) == CacheKey(units, values, trials, i)
    decreases i
  {
    forall d | d in units[i].dependsOn
      ensures d in trials && IdealKey(made, units, values, DependencyOf(units, i, d)) == Some(trials[d].current.cacheKey)
    {
      DependencyIsDigested(made, units, values, trials, i, d);
      KeyIsIdeal(made, units, values, trials, DependencyOf(units, i, d));
    }
    IdealFromDependencies(made, units, values, trials, i);
  }

  /** What a deterministic handler records as a pass is the artifact of its unit. */
  lemma {:induction false} ExecuteKeepsSound(made: Artifact, c: Context, u: Unit, key: Digest, st: RunState)
    requires u.id in c.handlers && Sound(made, st.trials) && Deterministic(made, c)
    ensures Sound(made, Execute(c, u, key, st).Stored())
  {
    ExecuteShape(c, u, key, st);
    var resuming := u.id in st.trials && st.trials[u.id].current.cacheKey == key;
    var begun := After(st.trials, Begin(u.id, c.producerSha, key, Note(resuming)));
    var result := c.handlers[u.id](begun[u.id]).result;
    if result.Reports? && result.status == Pass {
      assert begun[u.id].current.cacheKey == key;
      assert result == Reports(Pass, result.payload);
    }
  }

  /** Soundness survives every visit, returning or raising. */
  lemma {:induction false} VisitKeepsSound(made: Artifact, c: Context, i: nat, st: RunState)
    requires ValidRegistry(c.units) && i < |c.units|
    requires Sound(made, st.trials) && Deterministic(made, c)
    ensures Sound(made, Visit(c, i, st).Stored())
  {
    var key := CacheKey(c.units, c.values, st.trials, i);
    if key.Some? && c.units[i].id in c.handlers {
      ExecuteKeepsSound(made, c, c.units[i], key.value, st);
    }
  }

  lemma {:induction false} RunKeepsSound(made: Artifact, c: Context, n: nat, trials: Trials)
    requires ValidRegistry(c.units) && n <= |c.units|
    requires Sound(made, trials) && Deterministic(made, c)
    ensures Sound(made, RunPrefix(c, n, trials).Stored())
    decreases n
  {
    if n > 0 {
      RunKeepsSound(made, c, n - 1, trials);
      if RunPrefix(c, n - 1, trials).Returned? {
        VisitKeepsSound(made, c, n - 1, RunPrefix(c, n - 1, trials).state);
      }
    }
  }

  /** The journal left by any number of earlier runs, each with its own registry, values, handlers and selection. */
  ghost function AfterRuns(cs: seq<Context>): Trials
    requires forall c | c in cs :: ValidRegistry(c.units)
  {
    if cs == [] then map[] else RunAll(cs[|cs| - 1], AfterRuns(cs[..|cs| - 1])).Stored()
  }

  lemma {:induction false} EveryHistoryIsSound(made: Artifact, cs: seq<Context>)
    requires forall c | c in cs :: ValidRegistry(c.units) && Deterministic(made, c)
    ensures Sound(made, AfterRuns(cs))
    decreases |cs|
  {
    if cs != [] {
      var c := cs[|cs| - 1];
      EveryHistoryIsSound(made, cs[..|cs| - 1]);
      RunKeepsSound(made, c, |c.units|, AfterRuns(cs[..|cs| - 1]));
    }
  }

  /** What a run over a sound journal reports as passed is the ideal record of its unit. */
  lemma {:induction false} PassedIsIdeal(made: Artifact, c: Context, trials: Trials, i: nat)
    requires ValidRegistry(c.units) && i < |c.units|
    requires Sound(made, trials) && Deterministic(made, c)
    requires RunAll(c, trials).Returned? && Passed(RunAll(c, trials).state, c.units[i].id)
    ensures
      var stored := RunAll(c, trials).state.trials;
      var id := c.units[i].id;
      && id in stored
      && IdealKey(made, c.units, c.values, i) == Some(stored[id].current.cacheKey)
      && stored[id].current.artifactDigest == Some(PayloadDigest(made(id, stored[id].current.cacheKey)))
  {
    var st := RunAll(c, trials).state;
    RunReports(c, |c.units|, trials);
    assert Current(c, st.trials, i);
    RunKeepsSound(made, c, |c.units|, trials);
    KeyIsIdeal(made, c.units, c.values, st.trials, i);
  }

  /**
   * Incremental equals from scratch. After any history of runs, a unit that the incremental run
   * reports as passed, whether reused or executed, holds the cache key and the artifact digest
   * that a run from the empty journal gives it.
   */
  lemma {:induction false} IncrementalEqualsScratch(made: Artifact, history: seq<Context>, c: Context, scratch: Context, i: nat)
    requires forall h | h in history :: ValidRegistry(h.units) && Deterministic(made, h)
    requires ValidRegistry(c.units) && i < |c.units|
    requires Deterministic(made, c) && Deterministic(made, scratch)
    requires scratch.units == c.units && scratch.values == c.values
    requires RunAll(c, AfterRuns(history)).Returned? && Passed(RunAll(c, AfterRuns(history)).state, c.units[i].id)
    requires RunAll(scratch, map[]).Returned? && Passed(RunAll(scratch, map[]).state, c.units[i].id)
    ensures
      var incremental, anew := RunAll(c, AfterRuns(history)).state.trials, RunAll(scratch, map[]).state.trials;
      var id := c.units[i].id;
      && id in incremental && id in anew
      && incremental[id].current.cacheKey == anew[id].current.cacheKey
      && incremental[id].current.artifactDigest == anew[id].current.artifactDigest
  {
    EveryHistoryIsSound(made, history);
    PassedIsIdeal(made, c, AfterRuns(history), i);
    PassedIsIdeal(made, scratch, map[], i);
  }

  /** A handler that always reports a pass. */
  ghost predicate Succeeds(c: Context, id: string) {
    id in c.handlers
    && forall running: Record :: c.handlers[id](running).result.Reports? && c.handlers[id](running).result.status == Pass
  }

  /** An execution by a succeeding handler returns, and its unit has passed. */
  lemma {:induction false} SucceedingExecution(c: Context, u: Unit, key: Digest, st: RunState)
    requires Succeeds(c, u.id)
    ensures Execute(c, u, key, st).Returned?
    ensures
      var after := Execute(c, u, key, st).state;
      && after.executed == st.executed + [u.id] && after.reused == st.reused && after.skipped == st.skipped
      && after.failed == st.failed && PassRecorded(after.trials, u.id)
      && after.trials[u.id].current.cacheKey == key && after.trials[u.id].current.artifactDigest.Some?
  {
    ExecuteShape(c, u, key, st);
    var resuming := u.id in st.trials && st.trials[u.id].current.cacheKey == key;
    var begun := After(st.trials, Begin(u.id, c.producerSha, key, Note(resuming)));
    assert c.handlers[u.id](begun[u.id]).result.Reports?;
  }

  ghost predicate CheckpointsSupplied(c: Context) {
    forall i, name | 0 <= i < |c.units| && name in c.units[i].requiredCheckpoints :: name in c.values
  }

  /** The units before `n` hold exact passes under their current keys. */
  ghost predicate ExactUpTo(c: Context, n: nat, trials: Trials)
    requires ValidRegistry(c.units) && n <= |c.units|
  {
    forall j | 0 <= j < n :: ExactPass(trials, c.units[j].id, CacheKey(c.units, c.values, trials, j))
  }

  lemma {:induction false} KeyExists(c: Context, n: nat, trials: Trials)
    requires ValidRegistry(c.units) && n < |c.units| && CheckpointsSupplied(c) && ExactUpTo(c, n, trials)
    ensures DependenciesPass(c.units, c.values, trials, n) && CacheKey(c.units, c.values, trials, n).Some?
  {
    forall d | d in c.units[n].dependsOn
      ensures ExactPass(trials, d, CacheKey(c.units, c.values, trials, DependencyOf(c.units, n, d)))
    {
      var p := DependencyOf(c.units, n, d);
      assert ExactPass(trials, c.units[p].id, CacheKey(c.units, c.values, trials, p));
    }
  }

  /** One unit was executed and passed, under the key it has, and nothing else changed. */
  ghost predicate Refreshed(c: Context, n: nat, st: RunState, after: RunState)
    requires ValidRegistry(c.units) && n < |c.units|
  {
    && CacheKey(c.units, c.values, st.trials, n).Some?
    && ExecutedInto(c.units[n], CacheKey(c.units, c.values, st.trials, n).value, st, after)
    && PassRecorded(after.trials, c.units[n].id)
  }

  /** A visit whose unit has no record under its key, but a succeeding handler, executes and passes it. */
  lemma {:induction false} StaleUnitIsExecuted(c: Context, n: nat, st: RunState)
    requires ValidRegistry(c.units) && n < |c.units| && Full(c) && CheckpointsSupplied(c)
    requires ExactUpTo(c, n, st.trials) && st.failed == {}
    requires Succeeds(c, c.units[n].id)
    requires
      var u := c.units[n];
      u.id in st.trials ==> CacheKey(c.units, c.values, st.trials, n) != Some(st.trials[u.id].current.cacheKey)
    ensures Visit(c, n, st).Returned? && Refreshed(c, n, st, Visit(c, n, st).state)
  {
    var u := c.units[n];
    assert Ids(c.units)[n] == u.id;
    KeyExists(c, n, st.trials);
    var key := CacheKey(c.units, c.values, st.trials, n).value;
    assert Visit(c, n, st) == Execute(c, u, key, st);
    SucceedingExecution(c, u, key, st);
    ExecuteShape(c, u, key, st);
  }

  lemma {:induction false} RefreshKeepsExact(c: Context, n: nat, st: RunState, after: RunState)
    requires ValidRegistry(c.units) && n < |c.units|
    requires ExactUpTo(c, n, st.trials) && Refreshed(c, n, st, after)
    ensures ExactUpTo(c, n + 1, after.trials)
  {
    forall j | 0 <= j < n + 1
      ensures ExactPass(after.trials, c.units[j].id, CacheKey(c.units, c.values, after.trials, j))
    {
      forall k | 0 <= k < j
        ensures SameTrial(st.trials, after.trials, c.units[k].id)
      {
        DistinctUnits(c.units, k, n);
      }
      CacheKeyFrame(c.units, c.values, st.trials, after.trials, j);
      if j < n {
        DistinctUnits(c.units, j, n);
        assert SameTrial(st.trials, after.trials, c.units[j].id);
      }
    }
  }

  ghost predicate AllExecuted(c: Context, n: nat, st: RunState)
    requires ValidRegistry(c.units) && n <= |c.units|
  {
    && st.executed == Ids(c.units[..n]) && st.reused == [] && st.skipped == [] && st.failed == {}
    && ExactUpTo(c, n, st.trials)
    && forall j | n <= j < |c.units| :: c.units[j].id !in st.trials
  }

  lemma {:induction false} ScratchStep(c: Context, n: nat, st: RunState, after: RunState)
    requires ValidRegistry(c.units) && n < |c.units|
    requires AllExecuted(c, n, st) && Refreshed(c, n, st, after)
    ensures AllExecuted(c, n + 1, after)
  {
    RefreshKeepsExact(c, n, st, after);
    assert Ids(c.units[..n + 1]) == Ids(c.units[..n]) + [c.units[n].id];
    forall j | n + 1 <= j < |c.units|
      ensures c.units[j].id !in after.trials
    {
      DistinctUnits(c.units, j, n);
    }
  }

  /** From the empty journal, succeeding handlers and supplied checkpoints carry every unit to a pass. */
  lemma {:induction false} ScratchRunPasses(c: Context)
    requires ValidRegistry(c.units) && Full(c) && CheckpointsSupplied(c)
    requires forall i | 0 <= i < |c.units| :: Succeeds(c, c.units[i].id)
    ensures RunAll(c, map[]).Returned? && AllExecuted(c, |c.units|, RunAll(c, map[]).state)
  {
    ghost var P := (k: nat, st: RunState) => k <= |c.units| && AllExecuted(c, k, st);
    forall k: nat, st | k < |c.units| && P(k, st)
      ensures Visit(c, k, st).Returned? && P(k + 1, Visit(c, k, st).state)
    {
      StaleUnitIsExecuted(c, k, st);
      ScratchStep(c, k, st, Visit(c, k, st).state);
    }
    RunProgress(c, |c.units|, map[], P);
  }
}
