/** `affected_units`, and that it names exactly the units a change of checkpoints re-executes. */
module Affected {
  import opened Prelude
  import opened Journal
  import opened Runner
  import opened RunClosure
  import opened Incremental

  type Needs = map<string, seq<string>>

  ghost predicate Touches(hit: set<string>, required: seq<string>) {
    exists r | r in required :: r in hit
  }

  /** Contains every direct consumer of a changed checkpoint and whatever depends on a member. */
  ghost predicate ClosedUnder(consumers: Needs, changed: set<string>, graph: Needs, s: set<string>) {
    && (forall u | u in consumers && Touches(changed, consumers[u]) :: u in s)
    && (forall u | u in graph && Touches(s, graph[u]) :: u in s)
  }

  ghost predicate LeastClosed(consumers: Needs, changed: set<string>, graph: Needs, s: set<string>) {
    && ClosedUnder(consumers, changed, graph, s)
    && forall t: set<string> | ClosedUnder(consumers, changed, graph, t) :: s <= t
  }

  method AffectedUnits(consumers: Needs, changedCheckpoints: seq<string>, graph: Needs) returns (affected: set<string>)
    ensures LeastClosed(consumers, (set c | c in changedCheckpoints), graph, affected)
  {
    var changed := set c | c in changedCheckpoints;
    affected := set u | u in consumers && exists r | r in consumers[u] :: r in changed;
    while true
      invariant affected <= consumers.Keys + graph.Keys
      invariant forall u | u in consumers && Touches(changed, consumers[u]) :: u in affected
      invariant forall t: set<string> | ClosedUnder(consumers, changed, graph, t) :: affected <= t
      decreases consumers.Keys + graph.Keys - affected
    {
      var downstream := set u | u in graph && exists r | r in graph[u] :: r in affected;
      var expanded := affected + downstream;
      forall t: set<string> | ClosedUnder(consumers, changed, graph, t)
        ensures expanded <= t
      {
        forall u | u in downstream
          ensures u in t
        {
          assert affected <= t;
          assert Touches(t, graph[u]);
        }
      }
      if expanded == affected {
        forall u | u in graph && Touches(affected, graph[u])
          ensures u in affected
        {
          assert u in downstream;
        }
        return affected;
      }
      affected := expanded;
    }
  }

  // ---------------------------------------------------------------------------------------------
  // The units of a registry.

  ghost function ConsumersOf(units: seq<Unit>): Needs
    requires ValidRegistry(units)
  {
    map id | id in Ids(units) :: units[Position(units, id)].requiredCheckpoints
  }

  ghost function DependenciesOf(units: seq<Unit>): Needs
    requires ValidRegistry(units)
  {
    map id | id in Ids(units) :: units[Position(units, id)].dependsOn
  }

  ghost predicate AffectedSet(units: seq<Unit>, changed: set<string>, affected: set<string>)
    requires ValidRegistry(units)
  {
    LeastClosed(ConsumersOf(units), changed, DependenciesOf(units), affected)
  }

  /** A unit is affected exactly when it reads a changed checkpoint or depends on an affected unit. */
  lemma {:induction false} AffectedUnfolds(units: seq<Unit>, changed: set<string>, affected: set<string>, i: nat)
    requires ValidRegistry(units) && i < |units| && AffectedSet(units, changed, affected)
    ensures units[i].id in affected <==>
            Touches(changed, units[i].requiredCheckpoints) || Touches(affected, units[i].dependsOn)
  {
    var id, consumers, graph := units[i].id, ConsumersOf(units), DependenciesOf(units);
    assert Ids(units)[i] == id;
    var p := Position(units, id);
    if p != i {
      DistinctUnits(units, p, i);
    }
    assert consumers[id] == units[i].requiredCheckpoints && graph[id] == units[i].dependsOn;
    if id in affected && !Touches(changed, consumers[id]) && !Touches(affected, graph[id]) {
      var t := affected - {id};
      assert ClosedUnder(consumers, changed, graph, t) by {
        forall u | u in graph && Touches(t, graph[u])
          ensures u in t
        {
          assert Touches(affected, graph[u]);
        }
      }
    }
  }

  /** `again` differs from `c` in the values of exactly the checkpoints in `changed`. */
  ghost predicate ReallyChanged(c: Context, again: Context, changed: set<string>) {
    && (forall name | name in c.values && name in again.values :: c.values[name] != again.values[name] <==> name in changed)
    && c.values.Keys == again.values.Keys
    && changed <= c.values.Keys
  }

  /** An affected unit was re-executed under a new key; any other was reused as it stood. */
  ghost predicate Treated(id: string, before: Trials, affected: set<string>, st: RunState) {
    && (id in st.executed <==> id in affected)
    && (id in st.reused <==> id !in affected)
    && (if id in affected
        then id in st.trials && id in before && st.trials[id].current.cacheKey != before[id].current.cacheKey
        else SameTrial(before, st.trials, id))
  }

  ghost predicate Untouched(id: string, before: Trials, st: RunState) {
    id !in st.executed && id !in st.reused && SameTrial(before, st.trials, id)
  }

  /** How far the second run has come. */
  ghost predicate Separated(again: Context, n: nat, before: Trials, affected: set<string>, st: RunState)
    requires ValidRegistry(again.units) && n <= |again.units|
  {
    && st.failed == {} && st.skipped == []
    && ExactUpTo(again, n, st.trials)
    && (forall j | 0 <= j < n :: Treated(again.units[j].id, before, affected, st))
    && (forall j | n <= j < |again.units| :: Untouched(again.units[j].id, before, st))
  }

  lemma {:induction false} CheckpointValuesMove(c: Context, again: Context, changed: set<string>, required: seq<string>)
    requires ReallyChanged(c, again, changed)
    requires forall name | name in required :: name in c.values && name in again.values
    ensures CheckpointValues(c.values, required) != CheckpointValues(again.values, required) <==> Touches(changed, required)
  {
    var a, b := CheckpointValues(c.values, required), CheckpointValues(again.values, required);
    if Touches(changed, required) {
      var name :| name in required && name in changed;
      assert a[name] != b[name];
    } else {
      assert forall name | name in required :: a[name] == b[name];
    }
  }

  /** The digests of dependencies move when some dependency has a new key, and not when all records stand. */
  lemma {:induction false} DependencyDigestsMove(a: Trials, b: Trials, ids: seq<string>, moved: set<string>)
    requires HaveArtifacts(a, ids) && HaveArtifacts(b, ids)
    requires forall d | d in ids :: if d in moved then a[d].current.cacheKey != b[d].current.cacheKey else a[d] == b[d]
    ensures DependencyDigests(a, ids) != DependencyDigests(b, ids) <==> Touches(moved, ids)
  {
    var x, y := DependencyDigests(a, ids), DependencyDigests(b, ids);
    if Touches(moved, ids) {
      var d :| d in ids && d in moved;
      assert x[d].semanticKey != y[d].semanticKey;
    } else {
      assert forall d | d in ids :: x[d] == y[d];
    }
  }

  /** The records of the dependencies: standing if they are not affected, under a new key if they are. */
  lemma {:induction false} DependencyMoves(c: Context, again: Context, n: nat, before: Trials, affected: set<string>, st: RunState, d: string)
    requires ValidRegistry(c.units) && again.units == c.units && n < |c.units|
    requires Current(c, before, n) && Separated(again, n, before, affected, st) && d in c.units[n].dependsOn
    ensures d in before && before[d].current.artifactDigest.Some?
    ensures d in st.trials && st.trials[d].current.artifactDigest.Some?
    ensures if d in affected then before[d].current.cacheKey != st.trials[d].current.cacheKey else before[d] == st.trials[d]
  {
    var p := DependencyOf(c.units, n, d);
    assert Treated(again.units[p].id, before, affected, st);
    assert ExactPass(st.trials, again.units[p].id, CacheKey(again.units, again.values, st.trials, p));
    assert DependenciesPass(c.units, c.values, before, n);
    assert ExactPass(before, d, CacheKey(c.units, c.values, before, p));
  }

  lemma {:induction false} DigestsMove(c: Context, again: Context, n: nat, before: Trials, affected: set<string>, st: RunState)
    requires ValidRegistry(c.units) && again.units == c.units && n < |c.units|
    requires Current(c, before, n) && Separated(again, n, before, affected, st)
    ensures HaveArtifacts(before, c.units[n].dependsOn) && HaveArtifacts(st.trials, c.units[n].dependsOn)
    ensures DependencyDigests(before, c.units[n].dependsOn) != DependencyDigests(st.trials, c.units[n].dependsOn)
       <==> Touches(affected, c.units[n].dependsOn)
  {
    var deps := c.units[n].dependsOn;
    forall d | d in deps
      ensures d in before && before[d].current.artifactDigest.Some?
      ensures d in st.trials && st.trials[d].current.artifactDigest.Some?
      ensures if d in affected then before[d].current.cacheKey != st.trials[d].current.cacheKey else before[d] == st.trials[d]
    {
      DependencyMoves(c, again, n, before, affected, st, d);
    }
    DependencyDigestsMove(before, st.trials, deps, affected);
  }

  /** The key of a unit moves exactly when the unit is affected. */
  lemma {:induction false} KeyMoves(c: Context, again: Context, n: nat, before: Trials, changed: set<string>, affected: set<string>, st: RunState)
    requires ValidRegistry(c.units) && again.units == c.units && n < |c.units|
    requires CheckpointsSupplied(again) && ReallyChanged(c, again, changed) && AffectedSet(c.units, changed, affected)
    requires Current(c, before, n) && Separated(again, n, before, affected, st)
    ensures CacheKey(again.units, again.values, st.trials, n).Some?
    ensures CacheKey(again.units, again.values, st.trials, n) != Some(before[c.units[n].id].current.cacheKey)
       <==> c.units[n].id in affected
  {
    KeyExists(again, n, st.trials);
    AffectedUnfolds(c.units, changed, affected, n);
    DigestsMove(c, again, n, before, affected, st);
    CheckpointValuesMove(c, again, changed, c.units[n].requiredCheckpoints);
  }

  /** The visit of an affected unit refreshes it; the visit of any other reuses it. */
  lemma {:induction false} SecondVisit(c: Context, again: Context, n: nat, before: Trials, changed: set<string>, affected: set<string>, st: RunState)
    requires ValidRegistry(c.units) && again.units == c.units && n < |c.units| && Full(again)
    requires CheckpointsSupplied(again) && ReallyChanged(c, again, changed) && AffectedSet(c.units, changed, affected)
    requires Current(c, before, n) && Separated(again, n, before, affected, st)
    requires c.units[n].id in affected ==> Succeeds(again, c.units[n].id)
    ensures Visit(again, n, st).Returned?
    ensures c.units[n].id in affected ==>
              Refreshed(again, n, st, Visit(again, n, st).state)
              && Visit(again, n, st).state.trials[c.units[n].id].current.cacheKey != before[c.units[n].id].current.cacheKey
    ensures c.units[n].id !in affected ==>
              ReusedInto(c.units[n], st, Visit(again, n, st).state)
              && CacheKey(again.units, again.values, st.trials, n) == Some(st.trials[c.units[n].id].current.cacheKey)
  {
    KeyMoves(c, again, n, before, changed, affected, st);
    assert Untouched(again.units[n].id, before, st);
    assert Ids(c.units)[n] == c.units[n].id;
    if c.units[n].id in affected {
      StaleUnitIsExecuted(again, n, st);
    }
  }

  lemma {:induction false} RefreshSeparates(again: Context, n: nat, before: Trials, affected: set<string>, st: RunState, after: RunState)
    requires ValidRegistry(again.units) && n < |again.units|
    requires Separated(again, n, before, affected, st)
    requires again.units[n].id in affected && again.units[n].id in before
    requires Refreshed(again, n, st, after)
    requires after.trials[again.units[n].id].current.cacheKey != before[again.units[n].id].current.cacheKey
    ensures Separated(again, n + 1, before, affected, after)
  {
    RefreshKeepsExact(again, n, st, after);
    assert Untouched(again.units[n].id, before, st);
    forall j | 0 <= j < |again.units| && j != n
      ensures if j < n then Treated(again.units[j].id, before, affected, after) else Untouched(again.units[j].id, before, after)
    {
      DistinctUnits(again.units, j, n);
      assert if j < n then Treated(again.units[j].id, before, affected, st) else Untouched(again.units[j].id, before, st);
    }
  }

  lemma {:induction false} ReuseSeparates(again: Context, n: nat, before: Trials, affected: set<string>, st: RunState, after: RunState)
    requires ValidRegistry(again.units) && n < |again.units|
    requires Separated(again, n, before, affected, st)
    requires again.units[n].id !in affected && HasArtifact(before, again.units[n].id)
    requires ReusedInto(again.units[n], st, after)
    requires CacheKey(again.units, again.values, st.trials, n) == Some(st.trials[again.units[n].id].current.cacheKey)
    ensures Separated(again, n + 1, before, affected, after)
  {
    assert Untouched(again.units[n].id, before, st);
    forall j | 0 <= j < |again.units| && j != n
      ensures if j < n then Treated(again.units[j].id, before, affected, after) else Untouched(again.units[j].id, before, after)
    {
      DistinctUnits(again.units, j, n);
      assert if j < n then Treated(again.units[j].id, before, affected, st) else Untouched(again.units[j].id, before, st);
    }
    assert ExactPass(after.trials, again.units[n].id, CacheKey(again.units, again.values, after.trials, n));
  }

  /** The standing hypotheses of exact invalidation. */
  ghost predicate Rerun(c: Context, again: Context, before: Trials, changed: set<string>, affected: set<string>) {
    && ValidRegistry(c.units) && again.units == c.units && Full(again)
    && CheckpointsSupplied(again) && ReallyChanged(c, again, changed) && AffectedSet(c.units, changed, affected)
    && (forall i | 0 <= i < |c.units| :: Current(c, before, i) && HasArtifact(before, c.units[i].id))
    && (forall id | id in affected :: Succeeds(again, id))
  }

  lemma {:induction false} SeparationStep(c: Context, again: Context, n: nat, before: Trials, changed: set<string>, affected: set<string>, st: RunState)
    requires Rerun(c, again, before, changed, affected) && n < |c.units|
    requires Separated(again, n, before, affected, st)
    ensures Visit(again, n, st).Returned? && Separated(again, n + 1, before, affected, Visit(again, n, st).state)
  {
    assert Current(c, before, n);
    SecondVisit(c, again, n, before, changed, affected, st);
    if c.units[n].id in affected {
      RefreshSeparates(again, n, before, affected, st, Visit(again, n, st).state);
    } else {
      ReuseSeparates(again, n, before, affected, st, Visit(again, n, st).state);
    }
  }

  lemma {:induction false} SeparatedAtStart(again: Context, before: Trials, affected: set<string>)
    requires ValidRegistry(again.units)
    ensures Separated(again, 0, before, affected, RunState(before, [], [], [], [], {}))
  {
    var st := RunState(before, [], [], [], [], {});
    forall j | 0 <= j < |again.units|
      ensures Untouched(again.units[j].id, before, st)
    {
    }
  }

  lemma {:induction false} SeparatedRun(c: Context, again: Context, before: Trials, changed: set<string>, affected: set<string>)
    returns (second: RunState)
    requires Rerun(c, again, before, changed, affected)
    ensures RunAll(again, before) == Returned(second)
    ensures Separated(again, |c.units|, before, affected, second)
  {
    ghost var P := (k: nat, st: RunState) => k <= |again.units| && Separated(again, k, before, affected, st);
    SeparatedAtStart(again, before, affected);
    assert P(0, RunState(before, [], [], [], [], {}));
    forall k: nat, st | k < |again.units| && P(k, st)
      ensures Visit(again, k, st).Returned? && P(k + 1, Visit(again, k, st).state)
    {
      SeparationStep(c, again, k, before, changed, affected, st);
    }
    RunProgress(again, |c.units|, before, P);
    second := RunPrefix(again, |c.units|, before).state;
  }

  /** Where all units are separated, all have passed. */
  lemma {:induction false} SeparatedPassed(again: Context, before: Trials, affected: set<string>, st: RunState)
    requires ValidRegistry(again.units) && Separated(again, |again.units|, before, affected, st)
    ensures AllPassed(again, st)
  {
    forall i | 0 <= i < |again.units|
      ensures Passed(st, again.units[i].id)
    {
      assert ExactPass(st.trials, again.units[i].id, CacheKey(again.units, again.values, st.trials, i));
      assert Treated(again.units[i].id, before, affected, st);
    }
  }

  lemma {:induction false} PassingRunCanBeRerun(c: Context, again: Context, trials: Trials, first: RunState,
                             changed: set<string>, affected: set<string>)
    requires ValidRegistry(c.units) && again.units == c.units && Full(again)
    requires RunAll(c, trials) == Returned(first) && AllPassed(c, first) && WellKept(trials)
    requires CheckpointsSupplied(again) && ReallyChanged(c, again, changed) && AffectedSet(c.units, changed, affected)
    requires forall id | id in affected :: Succeeds(again, id)
    ensures Rerun(c, again, first.trials, changed, affected)
  {
    AllPassedIsCurrent(c, trials, first);
    RunKeepsLineage(c, trials);
    forall i | 0 <= i < |c.units|
      ensures HasArtifact(first.trials, c.units[i].id)
    {
      assert Current(c, first.trials, i);
      assert Lineage(first.trials[c.units[i].id]);
    }
  }

  /**
   * Exact invalidation. After a full run that passed every unit, really changing the values of a
   * set of checkpoints and running again with handlers that pass re-executes exactly the units
   * `affected_units` returns and reuses all the others.
   */
  lemma {:induction false} ExactInvalidation(c: Context, again: Context, trials: Trials, first: RunState,
                          changed: set<string>, affected: set<string>)
    returns (second: RunState)
    requires ValidRegistry(c.units) && again.units == c.units && Full(c) && Full(again)
    requires RunAll(c, trials) == Returned(first) && AllPassed(c, first)
    requires WellKept(trials)
    requires CheckpointsSupplied(again) && ReallyChanged(c, again, changed) && AffectedSet(c.units, changed, affected)
    requires forall id | id in affected :: Succeeds(again, id)
    ensures RunAll(again, first.trials) == Returned(second)
    ensures second.skipped == [] && AllPassed(again, second)
    ensures forall i | 0 <= i < |c.units| :: Treated(c.units[i].id, first.trials, affected, second)
  {
    PassingRunCanBeRerun(c, again, trials, first, changed, affected);
    second := SeparatedRun(c, again, first.trials, changed, affected);
    SeparatedPassed(again, first.trials, affected, second);
  }
}
