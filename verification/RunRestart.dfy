/**
 * What a handler's ending means for the runs that follow: which units are executed again under the
 * same key, which are final, and what the list of records a run returns holds.
 */
module RunRestart {
  import opened Prelude
  import opened Json
  import opened Journal
  import opened Runner
  import opened RunClosure

  /** The run comes to the unit at `i` with no failed dependency, and finds this key for it. */
  ghost predicate Reaches(c: Context, i: nat, key: Digest, trials: Trials) {
    && ValidRegistry(c.units) && i < |c.units| && c.units[i].id in c.selected
    && (forall id | id in c.selected :: id in Ids(c.units))
    && RunPrefix(c, i, trials).Returned?
    && !DependencyFailed(c, RunPrefix(c, i, trials).state, i)
    && CacheKey(c.units, c.values, RunPrefix(c, i, trials).state.trials, i) == Some(key)
  }

  /** The journal's record of the unit at `i` after the run, returned or raised. */
  ghost function RecordAfter(c: Context, i: nat, trials: Trials): Option<Record>
    requires ValidRegistry(c.units) && i < |c.units|
  {
    var stored := RunAll(c, trials).Stored();
    if c.units[i].id in stored then Some(stored[c.units[i].id]) else None
  }

  function AttemptsOf(trials: Trials, id: string): nat {
    if id in trials then trials[id].current.executionAttempt else 0
  }

  /** The handler left the unit to be tried again: an infrastructure failure, an escaping exception, or no terminal status. */
  predicate LeavesOpen(result: HandlerResult) {
    || result.RaisesInfrastructure? || result.Raises?
    || (result.Reports? && (result.status == InfraFailed || !result.status.Terminal()))
  }

  /** What one execution records, by how its handler ends. */
  ghost predicate RecordsEnding(result: HandlerResult, e: Entry) {
    match result
    case Reports(status, payload) => if status.Terminal() then e.status == status && e.payload == payload else e.status == Running
    case RaisesInfrastructure(reason) => e.status == InfraFailed && e.payload == reason
    case RaisesBlocked(reason) => e.status == Blocked && e.payload == reason
    case Raises => e.status == Running
  }

  lemma {:induction false} ExecuteRecords(c: Context, u: Unit, key: Digest, st: RunState)
    requires u.id in c.handlers
    ensures
      var out, result := Execute(c, u, key, st), HandlerCall(c, u, key, st.trials).result;
      && u.id in out.Stored() && out.Stored()[u.id].current.cacheKey == key
      && RecordsEnding(result, out.Stored()[u.id].current)
      && out.Stored()[u.id].current.executionAttempt == AttemptsOf(st.trials, u.id) + 1
      && (out.Raised? <==> result.Raises? || (result.Reports? && !result.status.Terminal()))
      && (out.Returned? ==> out.state.executed == st.executed + [u.id])
  {
    CheckpointsKeepRunning(Begun(c, u, key, st.trials), u.id, HandlerCall(c, u, key, st.trials).checkpoints);
  }

  /**
   * What a handler is called with: a running record of this producer and key, which says whether it
   * resumes and, if so, holds the runtime checkpoints observed so far.
   */
  lemma {:induction false} HandlerSees(c: Context, u: Unit, key: Digest, trials: Trials)
    ensures
      var e, resuming := Begun(c, u, key, trials)[u.id].current, u.id in trials && trials[u.id].current.cacheKey == key;
      && e.status == Running && e.producerSha == c.producerSha && e.cacheKey == key && e.artifactDigest == None
      && e.payload == Object(map["resuming" := Flag(resuming)])
      && e.runtimeCheckpoints == (if resuming then trials[u.id].current.runtimeCheckpoints else map[])
      && e.executionAttempt == AttemptsOf(trials, u.id) + 1
  {
  }

  /** What a handler last observed under a name. */
  ghost function LastWrite(writes: seq<CheckpointWrite>, name: string): Option<Payload> {
    if writes == [] then None
    else if writes[|writes| - 1].name == name then Some(writes[|writes| - 1].observation)
    else LastWrite(writes[..|writes| - 1], name)
  }

  /** The payload it last brought with an observation. */
  ghost function LastPayload(writes: seq<CheckpointWrite>, before: Payload): Payload {
    if writes == [] then before
    else
      var w := writes[|writes| - 1];
      if w.name != "" && w.payload.Some? then w.payload.value else LastPayload(writes[..|writes| - 1], before)
  }

  /** The runtime checkpoints are those from before, with what was observed since laid over them. */
  ghost predicate Overlaid(before: map<string, Payload>, writes: seq<CheckpointWrite>, after: map<string, Payload>) {
    && ("" in after <==> "" in before)
    && forall name | name != "" ::
         match LastWrite(writes, name)
         case Some(observation) => name in after && after[name] == observation
         case None => (name in after <==> name in before) && (name in before ==> after[name] == before[name])
  }

  /** All a handler observes stands in its record, whatever its ending, in the order in which it was observed. */
  lemma {:induction false} OwnCheckpointsStand(trials: Trials, id: string, writes: seq<CheckpointWrite>)
    requires id in trials && trials[id].current.status == Running
    ensures
      var after := WriteCheckpoints(trials, id, writes);
      && id in after && after[id].current.status == Running
      && Overlaid(trials[id].current.runtimeCheckpoints, writes, after[id].current.runtimeCheckpoints)
      && after[id].current.payload == LastPayload(writes, trials[id].current.payload)
    decreases |writes|
  {
    if writes != [] {
      OwnCheckpointsStand(trials, id, writes[..|writes| - 1]);
    }
  }

  /** So the record of an executed unit holds the checkpoints its handler saw, and its own over them. */
  lemma {:induction false} ExecutedKeepsCheckpoints(c: Context, u: Unit, key: Digest, st: RunState)
    requires u.id in c.handlers
    ensures
      var seen, stored := Begun(c, u, key, st.trials)[u.id].current, Execute(c, u, key, st).Stored();
      var writes := HandlerCall(c, u, key, st.trials).checkpoints;
      && u.id in stored && Overlaid(seen.runtimeCheckpoints, writes, stored[u.id].current.runtimeCheckpoints)
      && (stored[u.id].current.status == Running ==> stored[u.id].current.payload == LastPayload(writes, seen.payload))
  {
    OwnCheckpointsStand(Begun(c, u, key, st.trials), u.id, HandlerCall(c, u, key, st.trials).checkpoints);
  }

  /** Visits before and after a unit's own leave its record alone. */
  lemma {:induction false} LaterVisitsLeave(c: Context, i: nat, n: nat, trials: Trials)
    requires ValidRegistry(c.units) && i < n <= |c.units|
    ensures SameTrial(RunPrefix(c, i + 1, trials).Stored(), RunPrefix(c, n, trials).Stored(), c.units[i].id)
    decreases n
  {
    if i + 1 < n {
      LaterVisitsLeave(c, i, n - 1, trials);
      if RunPrefix(c, n - 1, trials).Returned? {
        DistinctUnits(c.units, i, n - 1);
        VisitLeavesVerdict(c, n - 1, RunPrefix(c, n - 1, trials).state, c.units[i].id);
      }
    }
  }

  lemma {:induction false} EarlierVisitsLeave(c: Context, i: nat, trials: Trials)
    requires ValidRegistry(c.units) && i < |c.units|
    ensures SameTrial(trials, RunPrefix(c, i, trials).Stored(), c.units[i].id)
  {
    forall j | 0 <= j < i ensures c.units[j].id != c.units[i].id {
      DistinctUnits(c.units, j, i);
    }
    PrefixLeavesVerdict(c, i, trials, c.units[i].id);
  }

  /** The outcome of a run that reaches the unit is decided, for that unit, by its visit. */
  lemma {:induction false} VisitDecides(c: Context, i: nat, key: Digest, trials: Trials)
    requires Reaches(c, i, key, trials)
    ensures
      var st := RunPrefix(c, i, trials).state;
      && SameTrial(trials, st.trials, c.units[i].id)
      && SameTrial(Visit(c, i, st).Stored(), RunAll(c, trials).Stored(), c.units[i].id)
      && (Visit(c, i, st).Raised? ==> RunAll(c, trials).Raised?)
  {
    EarlierVisitsLeave(c, i, trials);
    LaterVisitsLeave(c, i, |c.units|, trials);
    assert RunPrefix(c, i + 1, trials) == Visit(c, i, RunPrefix(c, i, trials).state);
    if RunPrefix(c, i + 1, trials).Raised? {
      RaisedStays(c, i + 1, |c.units|, trials);
    }
  }

  lemma {:induction false} SameCall(c: Context, u: Unit, key: Digest, a: Trials, b: Trials)
    requires u.id in c.handlers && SameTrial(a, b, u.id)
    ensures HandlerCall(c, u, key, a) == HandlerCall(c, u, key, b)
  {
  }

  /** A run that reaches a unit it may execute records how its handler ended, and raises exactly with an ending it cannot record. */
  lemma {:induction false} HandlerDecides(c: Context, i: nat, key: Digest, trials: Trials)
    requires Reaches(c, i, key, trials) && !Judged(trials, c.units[i].id, key) && c.units[i].id in c.handlers
    ensures
      var result := HandlerCall(c, c.units[i], key, trials).result;
      && RecordAfter(c, i, trials).Some? && RecordAfter(c, i, trials).value.current.cacheKey == key
      && RecordsEnding(result, RecordAfter(c, i, trials).value.current)
      && RecordAfter(c, i, trials).value.current.executionAttempt == AttemptsOf(trials, c.units[i].id) + 1
      && (result.Raises? || (result.Reports? && !result.status.Terminal()) ==> RunAll(c, trials).Raised?)
  {
    var st, u := RunPrefix(c, i, trials).state, c.units[i];
    VisitDecides(c, i, key, trials);
    SameCall(c, u, key, trials, st.trials);
    ExecuteRecords(c, u, key, st);
    assert Visit(c, i, st) == Execute(c, u, key, st);
  }

  /** A judged unit keeps its record; a pass goes on, any other verdict raises. */
  lemma {:induction false} JudgedStands(c: Context, i: nat, key: Digest, trials: Trials)
    requires Reaches(c, i, key, trials) && Judged(trials, c.units[i].id, key)
    ensures RecordAfter(c, i, trials) == Some(trials[c.units[i].id])
    ensures trials[c.units[i].id].current.status != Pass ==> RunAll(c, trials).Raised?
  {
    VisitDecides(c, i, key, trials);
  }

  /** The run comes to the unit at `i` with no failed dependency, and finds no key for it. */
  ghost predicate ReachesUnkeyed(c: Context, i: nat, trials: Trials) {
    && ValidRegistry(c.units) && i < |c.units| && c.units[i].id in c.selected
    && (forall id | id in c.selected :: id in Ids(c.units))
    && RunPrefix(c, i, trials).Returned?
    && !DependencyFailed(c, RunPrefix(c, i, trials).state, i)
    && CacheKey(c.units, c.values, RunPrefix(c, i, trials).state.trials, i).None?
  }

  lemma {:induction false} SkippedStays(c: Context, i: nat, n: nat, trials: Trials)
    requires ValidRegistry(c.units) && i < n <= |c.units| && RunPrefix(c, n, trials).Returned?
    requires RunPrefix(c, i + 1, trials).Returned? && c.units[i].id in RunPrefix(c, i + 1, trials).state.skipped
    ensures c.units[i].id in RunPrefix(c, n, trials).state.skipped
    decreases n
  {
    if i + 1 < n {
      SkippedStays(c, i, n - 1, trials);
      VisitSteps(c, n - 1, RunPrefix(c, n - 1, trials).state);
    }
  }

  /** Without a key the unit is skipped if a dependency holds no pass, and otherwise the run raises. */
  lemma {:induction false} UnkeyedIsSkippedIff(c: Context, i: nat, trials: Trials)
    requires ReachesUnkeyed(c, i, trials)
    ensures
      var missing := DependencyUnrecorded(c, RunPrefix(c, i, trials).state.trials, i);
      && (!missing ==> RunAll(c, trials).Raised? && RunAll(c, trials).Stored() == RunPrefix(c, i, trials).state.trials)
      && (missing && RunAll(c, trials).Returned? ==> c.units[i].id in RunAll(c, trials).state.skipped)
      && (missing && i == |c.units| - 1 ==> RunAll(c, trials).Returned?)
  {
    var st := RunPrefix(c, i, trials).state;
    if !DependencyUnrecorded(c, st.trials, i) {
      RaisedStays(c, i + 1, |c.units|, trials);
    } else if RunAll(c, trials).Returned? {
      SkippedStays(c, i, |c.units|, trials);
    }
  }

  /** A unit to be executed for which no handler is given makes the run raise, and keeps its record. */
  lemma {:induction false} NoHandlerRaises(c: Context, i: nat, key: Digest, trials: Trials)
    requires Reaches(c, i, key, trials) && !Judged(trials, c.units[i].id, key) && c.units[i].id !in c.handlers
    ensures RunAll(c, trials).Raised? && RunAll(c, trials).Stored() == RunPrefix(c, i, trials).state.trials
  {
    VisitDecides(c, i, key, trials);
    RaisedStays(c, i + 1, |c.units|, trials);
  }

  /**
   * The restart law. A unit executed under a key by one run is executed again by the next run that
   * reaches it under that key exactly if its handler raised an infrastructure error, let an exception
   * escape, or reported an infrastructure failure or no terminal status. Otherwise its record stands,
   * and the next run raises unless it is a pass.
   */
  lemma {:induction false} ExecutedAgainIff(c: Context, i: nat, key: Digest, trials: Trials, again: Context)
    requires Reaches(c, i, key, trials) && !Judged(trials, c.units[i].id, key) && c.units[i].id in c.handlers
    requires again.units == c.units && Reaches(again, i, key, RunAll(c, trials).Stored()) && c.units[i].id in again.handlers
    ensures
      var stored, result := RunAll(c, trials).Stored(), HandlerCall(c, c.units[i], key, trials).result;
      var first, second := RecordAfter(c, i, trials), RecordAfter(again, i, stored);
      && first.Some? && second.Some?
      && (second.value.current.executionAttempt > first.value.current.executionAttempt <==> LeavesOpen(result))
      && (!LeavesOpen(result) ==> second == first)
      && (!LeavesOpen(result) && !(result.Reports? && result.status == Pass) ==> RunAll(again, stored).Raised?)
  {
    var stored, u := RunAll(c, trials).Stored(), c.units[i];
    HandlerDecides(c, i, key, trials);
    if Judged(stored, u.id, key) {
      JudgedStands(again, i, key, stored);
    } else {
      HandlerDecides(again, i, key, stored);
    }
  }

  // ---------------------------------------------------------------------------------------------
  // A retry in a full run.

  /** A key reads only the records of the unit's ancestors. */
  lemma {:induction false} AncestorFrame(units: seq<Unit>, values: map<string, string>, a: Trials, b: Trials, i: nat)
    requires ValidRegistry(units) && i < |units|
    requires forall p | 0 <= p < |units| && Ancestor(units, p, i) :: SameTrial(a, b, units[p].id)
    ensures CacheKey(units, values, a, i) == CacheKey(units, values, b, i)
    decreases i
  {
    forall d | d in units[i].dependsOn
      ensures SameTrial(a, b, d)
      ensures ExactPass(a, d, CacheKey(units, values, a, DependencyOf(units, i, d)))
         <==> ExactPass(b, d, CacheKey(units, values, b, DependencyOf(units, i, d)))
    {
      var p := DependencyOf(units, i, d);
      assert Ancestor(units, p, i);
      assert forall q | 0 <= q < |units| && Ancestor(units, q, p) :: Ancestor(units, q, i);
      AncestorFrame(units, values, a, b, p);
    }
    if DependenciesPass(units, values, a, i) {
      assert DependencyDigests(a, units[i].dependsOn) == DependencyDigests(b, units[i].dependsOn);
    }
  }

  /** The unit at `j` is reused by a full run that comes past it. */
  ghost predicate ReusedAt(c: Context, j: nat, trials: Trials, st: RunState)
    requires j < |c.units|
  {
    SameTrial(trials, st.trials, c.units[j].id) && c.units[j].id !in st.failed
  }

  /** A unit with a current pass keeps its record in a full run, and does not fail. */
  lemma {:induction false} CurrentIsKept(c: Context, n: nat, trials: Trials, j: nat)
    requires ValidRegistry(c.units) && Full(c) && j < n <= |c.units| && RunPrefix(c, n, trials).Returned?
    requires Current(c, trials, j)
    ensures ReusedAt(c, j, trials, RunPrefix(c, n, trials).state)
    decreases j, 2 + n
  {
    if j < n - 1 {
      CurrentIsKept(c, n - 1, trials, j);
      RunReports(c, n - 1, trials);
      RunReports(c, n, trials);
      VisitSteps(c, n - 1, RunPrefix(c, n - 1, trials).state);
      StepFrame(c, n - 1, RunPrefix(c, n - 1, trials).state, RunPrefix(c, n, trials).state, j);
    } else {
      CurrentIsReused(c, j, trials);
    }
  }

  lemma {:induction false} CurrentIsReused(c: Context, j: nat, trials: Trials)
    requires ValidRegistry(c.units) && Full(c) && j < |c.units| && RunPrefix(c, j + 1, trials).Returned?
    requires Current(c, trials, j)
    ensures ReusedAt(c, j, trials, RunPrefix(c, j + 1, trials).state)
    decreases j, 1
  {
    var st := RunPrefix(c, j, trials).state;
    EarlierVisitsLeave(c, j, trials);
    KeyIsKept(c, j, trials);
    RunReports(c, j, trials);
    assert Ids(c.units)[j] == c.units[j].id;
    assert Times(st, c.units[j].id) == 0;
  }

  /** A full run that comes to a unit whose dependencies were current finds them so, under the same key. */
  lemma {:induction false} KeyIsKept(c: Context, i: nat, trials: Trials)
    requires ValidRegistry(c.units) && Full(c) && i < |c.units| && RunPrefix(c, i, trials).Returned?
    requires CacheKey(c.units, c.values, trials, i).Some?
    ensures CacheKey(c.units, c.values, RunPrefix(c, i, trials).state.trials, i) == CacheKey(c.units, c.values, trials, i)
    ensures !DependencyFailed(c, RunPrefix(c, i, trials).state, i)
    decreases i, 0
  {
    var st := RunPrefix(c, i, trials).state;
    forall p | 0 <= p < |c.units| && Ancestor(c.units, p, i)
      ensures p < i && ReusedAt(c, p, trials, st)
    {
      AncestorIsEarlier(c.units, p, i);
      AncestorsAreCurrent(c, trials, p, i);
      CurrentIsKept(c, i, trials, p);
    }
    AncestorFrame(c.units, c.values, trials, st.trials, i);
    forall d | d in c.units[i].dependsOn ensures d !in st.failed {
      assert Ancestor(c.units, DependencyOf(c.units, i, d), i);
    }
  }

  lemma {:induction false} AncestorIsEarlier(units: seq<Unit>, a: nat, i: nat)
    requires ValidRegistry(units) && i < |units| && Ancestor(units, a, i)
    ensures a < i
    decreases i
  {
    var d :| d in units[i].dependsOn && (DependencyOf(units, i, d) == a || Ancestor(units, a, DependencyOf(units, i, d)));
    if DependencyOf(units, i, d) != a {
      AncestorIsEarlier(units, a, DependencyOf(units, i, d));
    }
  }

  /**
   * After an infrastructure error the record says so under the unit's key, and the next full run that
   * comes to the unit while its dependencies hold their passes executes it again; if its handler now
   * passes, so does the unit.
   */
  lemma {:induction false} InfrastructureIsRetried(c: Context, i: nat, key: Digest, trials: Trials, again: Context)
    requires Reaches(c, i, key, trials) && !Judged(trials, c.units[i].id, key) && c.units[i].id in c.handlers
    requires HandlerCall(c, c.units[i], key, trials).result.RaisesInfrastructure?
    requires again.units == c.units && Full(again) && c.units[i].id in again.handlers
    requires CacheKey(c.units, again.values, RunAll(c, trials).Stored(), i) == Some(key)
    requires RunPrefix(again, i, RunAll(c, trials).Stored()).Returned?
    requires
      var result := HandlerCall(again, c.units[i], key, RunAll(c, trials).Stored()).result;
      result.Reports? && result.status == Pass
    ensures
      var stored := RunAll(c, trials).Stored();
      && RecordAfter(c, i, trials).Some? && RecordAfter(c, i, trials).value.current.status == InfraFailed
      && RecordAfter(c, i, trials).value.current.cacheKey == key
      && RecordAfter(again, i, stored).Some? && RecordAfter(again, i, stored).value.current.status == Pass
      && RecordAfter(again, i, stored).value.current.cacheKey == key
      && RecordAfter(again, i, stored).value.current.executionAttempt == RecordAfter(c, i, trials).value.current.executionAttempt + 1
  {
    var stored := RunAll(c, trials).Stored();
    HandlerDecides(c, i, key, trials);
    assert Ids(again.units)[i] == c.units[i].id;
    KeyIsKept(again, i, stored);
    assert Reaches(again, i, key, stored);
    HandlerDecides(again, i, key, stored);
  }

  // ---------------------------------------------------------------------------------------------
  // Verdicts over any number of runs.

  /** The journal after the first `n` of several runs, each with its own values, handlers and selection. */
  ghost function AfterRuns(runs: seq<Context>, n: nat, trials: Trials): Trials
    requires n <= |runs| && forall k | 0 <= k < |runs| :: ValidRegistry(runs[k].units)
  {
    if n == 0 then trials else RunAll(runs[n - 1], AfterRuns(runs, n - 1, trials)).Stored()
  }

  /** Under this key, a blocked unit is never anything else again, whatever runs come after. */
  lemma {:induction false} BlockedIsFinal(c: Context, i: nat, key: Digest, trials: Trials, runs: seq<Context>, n: nat)
    requires Reaches(c, i, key, trials) && !Judged(trials, c.units[i].id, key) && c.units[i].id in c.handlers
    requires HandlerCall(c, c.units[i], key, trials).result.RaisesBlocked?
    requires n <= |runs| && forall k | 0 <= k < |runs| :: runs[k].units == c.units
    requires forall k | 0 <= k <= n :: KeyInForce(AfterRuns(runs, k, RunAll(c, trials).Stored()), c.units[i].id, key)
    ensures
      var now := AfterRuns(runs, n, RunAll(c, trials).Stored());
      && c.units[i].id in now && Some(now[c.units[i].id]) == RecordAfter(c, i, trials)
      && now[c.units[i].id].current.status == Blocked
    decreases n
  {
    HandlerDecides(c, i, key, trials);
    if n > 0 {
      BlockedIsFinal(c, i, key, trials, runs, n - 1);
      var before := AfterRuns(runs, n - 1, RunAll(c, trials).Stored());
      VerdictsAreNeverRetried(runs[n - 1], before, c.units[i].id);
      assert KeyInForce(AfterRuns(runs, n, RunAll(c, trials).Stored()), c.units[i].id, key);
    }
  }

  ghost predicate KeyInForce(trials: Trials, id: string, key: Digest) {
    id in trials ==> trials[id].current.cacheKey == key
  }

  /** And a run that reaches it under that key raises. */
  lemma {:induction false} BlockedRaises(c: Context, i: nat, key: Digest, trials: Trials)
    requires Reaches(c, i, key, trials) && c.units[i].id in trials
    requires trials[c.units[i].id].current.cacheKey == key && trials[c.units[i].id].current.status == Blocked
    ensures RunAll(c, trials).Raised? && RecordAfter(c, i, trials) == Some(trials[c.units[i].id])
  {
    JudgedStands(c, i, key, trials);
  }

  // ---------------------------------------------------------------------------------------------
  // The records a run returns.

  /** The stored records of the units among the first `n` that were executed or reused, in registry order. */
  ghost function Held(c: Context, n: nat, st: RunState): seq<Record>
    requires n <= |c.units|
  {
    if n == 0 then [] else
      var id := c.units[n - 1].id;
      Held(c, n - 1, st) + if (id in st.executed || id in st.reused) && id in st.trials then [st.trials[id]] else []
  }

  /** What one visit adds to the lists, and the record it reports. */
  lemma {:induction false} VisitRecords(c: Context, n: nat, st: RunState, after: RunState)
    requires ValidRegistry(c.units) && n < |c.units| && Visit(c, n, st) == Returned(after)
    ensures
      var id := c.units[n].id;
      || (after.records == st.records && after.executed == st.executed && after.reused == st.reused && after.trials == st.trials)
      || (&& id in after.trials && after.records == st.records + [after.trials[id]]
          && after.trials == st.trials[id := after.trials[id]]
          && ((after.executed == st.executed + [id] && after.reused == st.reused)
              || (after.executed == st.executed && after.reused == st.reused + [id])))
  {
    var u, key := c.units[n], CacheKey(c.units, c.values, st.trials, n);
    if key.Some? && u.id in c.handlers {
      ExecuteShape(c, u, key.value, st);
    }
  }

  lemma {:induction false} HeldFrame(c: Context, n: nat, st: RunState, after: RunState)
    requires n <= |c.units|
    requires forall j | 0 <= j < n ::
               && SameTrial(st.trials, after.trials, c.units[j].id)
               && (c.units[j].id in st.executed <==> c.units[j].id in after.executed)
               && (c.units[j].id in st.reused <==> c.units[j].id in after.reused)
    ensures Held(c, n, st) == Held(c, n, after)
    decreases n
  {
    if n > 0 {
      HeldFrame(c, n - 1, st, after);
    }
  }

  lemma {:induction false} RecordsNext(c: Context, n: nat, st: RunState, after: RunState)
    requires ValidRegistry(c.units) && n < |c.units| && Listed(c, n, st) && st.records == Held(c, n, st)
    requires Visit(c, n, st) == Returned(after)
    ensures after.records == Held(c, n + 1, after)
  {
    VisitRecords(c, n, st, after);
    assert Times(st, c.units[n].id) == 0;
    forall j | 0 <= j < n
      ensures SameTrial(st.trials, after.trials, c.units[j].id)
      ensures c.units[j].id in st.executed <==> c.units[j].id in after.executed
      ensures c.units[j].id in st.reused <==> c.units[j].id in after.reused
    {
      DistinctUnits(c.units, j, n);
    }
    HeldFrame(c, n, st, after);
  }

  /** On return the records are those the journal holds for the executed and the reused units, in registry order. */
  lemma {:induction false} RecordsAreHeld(c: Context, n: nat, trials: Trials)
    requires ValidRegistry(c.units) && n <= |c.units| && RunPrefix(c, n, trials).Returned?
    ensures RunPrefix(c, n, trials).state.records == Held(c, n, RunPrefix(c, n, trials).state)
    decreases n
  {
    if n > 0 {
      RecordsAreHeld(c, n - 1, trials);
      RunReports(c, n - 1, trials);
      RecordsNext(c, n - 1, RunPrefix(c, n - 1, trials).state, RunPrefix(c, n, trials).state);
    }
  }

  /** The names of units among the first `n`, each after the one before it in the registry. */
  ghost predicate InRegistryOrder(units: seq<Unit>, n: nat, ids: seq<string>) {
    && (forall i | 0 <= i < |ids| :: ids[i] in Ids(units) && Position(units, ids[i]) < n)
    && forall i, j | 0 <= i < j < |ids| :: ids[i] in Ids(units) && ids[j] in Ids(units) && Position(units, ids[i]) < Position(units, ids[j])
  }

  lemma {:induction false} OneMoreInOrder(units: seq<Unit>, n: nat, ids: seq<string>)
    requires ValidRegistry(units) && n < |units| && InRegistryOrder(units, n, ids)
    ensures InRegistryOrder(units, n + 1, ids) && InRegistryOrder(units, n + 1, ids + [units[n].id])
  {
    assert Ids(units)[n] == units[n].id;
    PositionIsPlace(units, n);
  }

  lemma {:induction false} PositionIsPlace(units: seq<Unit>, n: nat)
    requires ValidRegistry(units) && n < |units| && units[n].id in Ids(units)
    ensures Position(units, units[n].id) == n
  {
    var p := Position(units, units[n].id);
    if p != n {
      DistinctUnits(units, p, n);
    }
  }

  ghost predicate ListsInOrder(units: seq<Unit>, n: nat, st: RunState) {
    InRegistryOrder(units, n, st.executed) && InRegistryOrder(units, n, st.reused) && InRegistryOrder(units, n, st.skipped)
  }

  /** What one visit adds to the three lists: its own unit, at the end of one of them, or nothing. */
  ghost predicate Appended(id: string, before: RunState, after: RunState) {
    && (after.executed == before.executed || after.executed == before.executed + [id])
    && (after.reused == before.reused || after.reused == before.reused + [id])
    && (after.skipped == before.skipped || after.skipped == before.skipped + [id])
  }

  lemma {:induction false} VisitAppends(c: Context, n: nat, st: RunState)
    requires ValidRegistry(c.units) && n < |c.units| && Visit(c, n, st).Returned?
    ensures Appended(c.units[n].id, st, Visit(c, n, st).state)
  {
    VisitSteps(c, n, st);
  }

  lemma {:induction false} OrderGoesOn(units: seq<Unit>, n: nat, before: RunState, after: RunState)
    requires ValidRegistry(units) && n < |units| && ListsInOrder(units, n, before) && Appended(units[n].id, before, after)
    ensures ListsInOrder(units, n + 1, after)
  {
    OneMoreInOrder(units, n, before.executed);
    OneMoreInOrder(units, n, before.reused);
    OneMoreInOrder(units, n, before.skipped);
  }

  /** The units a run executes, reuses and skips are listed in the order of the registry. */
  lemma {:induction false} ListsFollowTheRegistry(c: Context, n: nat, trials: Trials)
    requires ValidRegistry(c.units) && n <= |c.units| && RunPrefix(c, n, trials).Returned?
    ensures ListsInOrder(c.units, n, RunPrefix(c, n, trials).state)
    decreases n
  {
    if n > 0 {
      ListsFollowTheRegistry(c, n - 1, trials);
      VisitAppends(c, n - 1, RunPrefix(c, n - 1, trials).state);
      OrderGoesOn(c.units, n - 1, RunPrefix(c, n - 1, trials).state, RunPrefix(c, n, trials).state);
    }
  }
}
