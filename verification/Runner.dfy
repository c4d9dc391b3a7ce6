/**
 * The incremental experiment engine of `experiment.py`. `RunAll` is the meaning of one call of
 * `run`, as a function of the stored records; `ExperimentRunner.Run` performs it in place.
 */
module Runner {
  import opened Prelude
  import opened Json
  import opened Journal

  datatype Unit = Unit(id: string, requiredCheckpoints: seq<string>, dependsOn: seq<string>, inputDigest: string)

  function Ids(units: seq<Unit>): (ids: seq<string>)
    ensures |ids| == |units|
    ensures forall i | 0 <= i < |units| :: ids[i] == units[i].id
  {
    seq(|units|, i requires 0 <= i < |units| => units[i].id)
  }

  ghost predicate DependsBackwards(units: seq<Unit>, i: nat)
    requires i < |units|
  {
    forall d | d in units[i].dependsOn :: d in Ids(units[..i])
  }

  /** The registries `ExperimentRunner.__init__` accepts. */
  ghost predicate ValidRegistry(units: seq<Unit>) {
    && Distinct(Ids(units))
    && forall i | 0 <= i < |units| :: DependsBackwards(units, i)
  }

  /** The registry check of the constructor, with its growing set of units already seen. */
  method CheckRegistry(units: seq<Unit>) returns (ok: bool)
    ensures ok <==> ValidRegistry(units)
  {
    var all := Elements(Ids(units));
    CountDistinct(Ids(units));
    if |all| != |units| {
      return false;
    }
    var seen: set<string> := {};
    for n := 0 to |units|
      invariant seen == set id | id in Ids(units[..n])
      invariant forall i | 0 <= i < n :: DependsBackwards(units, i)
    {
      if exists d | d in units[n].dependsOn :: d !in seen {
        assert !DependsBackwards(units, n);
        return false;
      }
      assert forall id :: id in Ids(units[..n + 1]) <==> id in Ids(units[..n]) || id == units[n].id by {
        assert units[..n + 1] == units[..n] + [units[n]];
        assert Ids(units[..n + 1]) == Ids(units[..n]) + [units[n].id];
      }
      seen := seen + {units[n].id};
    }
    return true;
  }

  function Position(units: seq<Unit>, id: string): (p: nat)
    requires id in Ids(units)
    ensures p < |units| && units[p].id == id
    ensures forall j | 0 <= j < |units| && units[j].id == id :: p <= j
  {
    if units[0].id == id then 0 else
      var i :| 0 <= i < |units| && Ids(units)[i] == id;
      assert Ids(units[1..])[i - 1] == id;
      1 + Position(units[1..], id)
  }

  /** The position of a dependency of unit `i`; it precedes `i`. */
  function DependencyOf(units: seq<Unit>, i: nat, d: string): (p: nat)
    requires ValidRegistry(units) && i < |units| && d in units[i].dependsOn
    ensures p < i && units[p].id == d
  {
    assert DependsBackwards(units, i);
    assert Ids(units[..i]) == Ids(units)[..i];
    Position(units, d)
  }

  function CheckpointValues(values: map<string, string>, required: seq<string>): map<string, string>
    requires forall c | c in required :: c in values
  {
    map c | c in required :: values[c]
  }

  /** `semantic_cache_key`: absent when a required checkpoint has no value. */
  function SemanticKey(values: map<string, string>, u: Unit, dependencies: map<string, Digest>): Option<Digest> {
    if forall c | c in u.requiredCheckpoints :: c in values then
      Some(KeyDigest(CheckpointValues(values, u.requiredCheckpoints), dependencies, u.inputDigest))
    else
      None
  }

  predicate HasArtifact(trials: Trials, id: string) {
    id in trials && trials[id].current.artifactDigest.Some?
  }

  /** The record of `id` is a pass whose key is `key` and which names its artifact. */
  predicate ExactPass(trials: Trials, id: string, key: Option<Digest>) {
    && HasArtifact(trials, id)
    && trials[id].current.status == Pass
    && Some(trials[id].current.cacheKey) == key
  }

  predicate HaveArtifacts(trials: Trials, ids: seq<string>) {
    forall d | d in ids :: d in trials && trials[d].current.artifactDigest.Some?
  }

  /** Every dependency of the unit at `i` holds an exact semantic pass. */
  predicate DependenciesPass(units: seq<Unit>, values: map<string, string>, trials: Trials, i: nat)
    requires ValidRegistry(units) && i < |units|
    ensures DependenciesPass(units, values, trials, i) ==> HaveArtifacts(trials, units[i].dependsOn)
    decreases i, 0
  {
    forall d | d in units[i].dependsOn ::
      ExactPass(trials, d, CacheKey(units, values, trials, DependencyOf(units, i, d)))
  }

  function DependencyDigests(trials: Trials, ids: seq<string>): map<string, Digest>
    requires HaveArtifacts(trials, ids)
  {
    map d | d in ids :: ArtifactDigest(trials[d].current.cacheKey, trials[d].current.artifactDigest.value)
  }

  /** `ExperimentRunner.cache_key` of the unit at `i`: absent when the source raises. */
  function CacheKey(units: seq<Unit>, values: map<string, string>, trials: Trials, i: nat): Option<Digest>
    requires ValidRegistry(units) && i < |units|
    decreases i, 1
  {
    if DependenciesPass(units, values, trials, i) then
      SemanticKey(values, units[i], DependencyDigests(trials, units[i].dependsOn))
    else
      None
  }

  // ---------------------------------------------------------------------------------------------
  // Handlers and one run.

  datatype CheckpointWrite = CheckpointWrite(name: string, observation: Payload, payload: Option<Payload>)

  /** How a handler ends; `Raises` is any exception that `run` lets through. */
  datatype HandlerResult =
    | Reports(status: Status, payload: Payload)
    | RaisesInfrastructure(reason: Payload)
    | RaisesBlocked(reason: Payload)
    | Raises

  /** A handler call: the runtime checkpoints it writes on its own trial, then how it ends. */
  datatype HandlerRun = HandlerRun(checkpoints: seq<CheckpointWrite>, result: HandlerResult)

  /** A handler sees its running record. Another run may bring another handler for the same unit. */
  type Handler = Record -> HandlerRun

  datatype Context = Context(
    units: seq<Unit>,
    values: map<string, string>,
    producerSha: string,
    handlers: map<string, Handler>,
    selected: set<string>)

  datatype RunState = RunState(
    trials: Trials,
    records: seq<Record>,
    executed: seq<string>,
    reused: seq<string>,
    skipped: seq<string>,
    failed: set<string>)

  /** A run returns its lists, or raises and leaves the records as written so far. */
  datatype RunOutcome = Returned(state: RunState) | Raised(trials: Trials) {
    function Stored(): Trials {
      if Returned? then state.trials else trials
    }
  }

  /** The payload an execution begins with. */
  function Note(resuming: bool): Payload {
    Object(map["resuming" := Flag(resuming)])
  }

  function WriteCheckpoints(trials: Trials, id: string, writes: seq<CheckpointWrite>): Trials {
    if writes == [] then trials else
      var n := |writes| - 1;
      After(WriteCheckpoints(trials, id, writes[..n]),
            Checkpoint(id, writes[n].name, writes[n].observation, writes[n].payload))
  }

  function Skip(u: Unit, st: RunState): RunState {
    st.(skipped := st.skipped + [u.id], failed := st.failed + {u.id})
  }

  /** The terminal status and payload with which a handler result is recorded, if it is. */
  function Verdict(result: HandlerResult): Option<(Status, Payload)> {
    match result
    case Reports(status, payload) => if status.Terminal() then Some((status, payload)) else None
    case RaisesInfrastructure(reason) => Some((InfraFailed, reason))
    case RaisesBlocked(reason) => Some((Blocked, reason))
    case Raises => None
  }

  /** The records after `begin`: the handler is called with the running one. */
  function Begun(c: Context, u: Unit, key: Digest, trials: Trials): (begun: Trials)
    ensures u.id in begun
  {
    var resuming := u.id in trials && trials[u.id].current.cacheKey == key;
    After(trials, Begin(u.id, c.producerSha, key, Note(resuming)))
  }

  function HandlerCall(c: Context, u: Unit, key: Digest, trials: Trials): HandlerRun
    requires u.id in c.handlers
  {
    c.handlers[u.id](Begun(c, u, key, trials)[u.id])
  }

  /** The records after `begin` and the handler's own checkpoints, before any verdict. */
  function Worked(c: Context, u: Unit, key: Digest, trials: Trials): Trials
    requires u.id in c.handlers
  {
    WriteCheckpoints(Begun(c, u, key, trials), u.id, HandlerCall(c, u, key, trials).checkpoints)
  }

  function Ending(c: Context, u: Unit, key: Digest, trials: Trials): Option<(Status, Payload)>
    requires u.id in c.handlers
  {
    Verdict(HandlerCall(c, u, key, trials).result)
  }

  function Execute(c: Context, u: Unit, key: Digest, st: RunState): RunOutcome
    requires u.id in c.handlers
  {
    var worked := Worked(c, u, key, st.trials);
    match Ending(c, u, key, st.trials)
    case None => Raised(worked)
    case Some((status, payload)) =>
      var finished := After(worked, Finish(u.id, status, payload));
      if u.id !in finished then Raised(finished) else
        Returned(st.(trials := finished,
        records := st.records + [finished[u.id]],
        executed := st.executed + [u.id],
        failed := if finished[u.id].current.status == Pass then st.failed else st.failed + {u.id}))
  }

  predicate PassRecorded(trials: Trials, id: string) {
    id in trials && trials[id].current.status == Pass
  }

  /** The loop body of `run` for the unit at `i`. */
  function Visit(c: Context, i: nat, st: RunState): RunOutcome
    requires ValidRegistry(c.units) && i < |c.units|
  {
    var u := c.units[i];
    if u.id !in c.selected then Returned(st)
    else if exists d | d in u.dependsOn :: d in st.failed then Returned(Skip(u, st))
    else
      match CacheKey(c.units, c.values, st.trials, i)
      case None =>
        if exists d | d in u.dependsOn :: !PassRecorded(st.trials, d) then Returned(Skip(u, st)) else Raised(st.trials)
      case Some(key) =>
        if u.id in st.trials && st.trials[u.id].current.cacheKey == key && st.trials[u.id].current.status == Pass then
          Returned(st.(records := st.records + [st.trials[u.id]], reused := st.reused + [u.id]))
        else if u.id in st.trials && st.trials[u.id].current.cacheKey == key
                && !st.trials[u.id].current.status.Resumable() then Raised(st.trials)
        else if u.id !in c.handlers then Raised(st.trials)
        else Execute(c, u, key, st)
  }

  function RunPrefix(c: Context, n: nat, trials: Trials): RunOutcome
    requires ValidRegistry(c.units) && n <= |c.units|
  {
    if n == 0 then Returned(RunState(trials, [], [], [], [], {}))
    else match RunPrefix(c, n - 1, trials)
      case Raised(t) => Raised(t)
      case Returned(st) => Visit(c, n - 1, st)
  }

  /** One call of `run`; an unknown selected unit is refused before anything happens. */
  function RunAll(c: Context, trials: Trials): RunOutcome
    requires ValidRegistry(c.units)
  {
    if exists id | id in c.selected :: id !in Ids(c.units) then Raised(trials) else RunPrefix(c, |c.units|, trials)
  }

  /** Once a prefix has raised, the whole run has. */
  lemma {:induction false} RaisedStays(c: Context, n: nat, m: nat, trials: Trials)
    requires ValidRegistry(c.units) && n <= m <= |c.units|
    requires RunPrefix(c, n, trials).Raised?
    ensures RunPrefix(c, m, trials) == RunPrefix(c, n, trials)
    decreases m
  {
    if n < m {
      RaisedStays(c, n, m - 1, trials);
    }
  }

  /** Induction over a run: what holds at the start and survives each returning visit holds on return. */
  lemma {:induction false} RunInvariant(c: Context, n: nat, trials: Trials, P: (nat, RunState) -> bool)
    requires ValidRegistry(c.units) && n <= |c.units|
    requires P(0, RunState(trials, [], [], [], [], {}))
    requires forall k: nat, st | k < |c.units| && P(k, st) && Visit(c, k, st).Returned? :: P(k + 1, Visit(c, k, st).state)
    ensures RunPrefix(c, n, trials).Returned? ==> P(n, RunPrefix(c, n, trials).state)
    decreases n
  {
    if n > 0 {
      RunInvariant(c, n - 1, trials, P);
    }
  }

  /** The same for a run in which no visit raises. */
  lemma {:induction false} RunProgress(c: Context, n: nat, trials: Trials, P: (nat, RunState) -> bool)
    requires ValidRegistry(c.units) && n <= |c.units|
    requires P(0, RunState(trials, [], [], [], [], {}))
    requires forall k: nat, st | k < |c.units| && P(k, st) :: Visit(c, k, st).Returned? && P(k + 1, Visit(c, k, st).state)
    ensures RunPrefix(c, n, trials).Returned? && P(n, RunPrefix(c, n, trials).state)
    decreases n
  {
    if n > 0 {
      RunProgress(c, n - 1, trials, P);
    }
  }

  class ExperimentRunner {
    const units: seq<Unit>
    const journal: TrialJournal
    const values: map<string, string>
    const producerSha: string

    constructor (units: seq<Unit>, journal: TrialJournal, values: map<string, string>, producerSha: string)
      ensures this.units == units && this.journal == journal && this.values == values && this.producerSha == producerSha
    {
      this.units, this.journal, this.values, this.producerSha := units, journal, values, producerSha;
    }

    /** Begin, let the handler work, and record its verdict; `None` when an exception escapes. */
    method ExecuteUnit(c: Context, u: Unit, key: Digest, ghost st: RunState) returns (record: Option<Record>)
      requires c.producerSha == producerSha && u.id in c.handlers && st.trials == journal.trials
      modifies journal
      ensures journal.trials == Execute(c, u, key, st).Stored()
      ensures record.Some? <==> Execute(c, u, key, st).Returned?
      ensures record.Some? ==> u.id in journal.trials && record.value == journal.trials[u.id]
    {
      var previous := journal.Read(u.id);
      var resuming := previous.Some? && previous.value.current.cacheKey == key;
      var running := journal.BeginTrial(u.id, producerSha, key, Note(resuming));
      var handled := c.handlers[u.id](running);
      ghost var begun := journal.trials;
      for k := 0 to |handled.checkpoints|
        invariant journal.trials == WriteCheckpoints(begun, u.id, handled.checkpoints[..k])
      {
        var w := handled.checkpoints[k];
        assert handled.checkpoints[..k + 1][..k] == handled.checkpoints[..k];
        var _ := journal.CheckpointTrial(u.id, w.name, w.observation, w.payload);
      }
      assert handled.checkpoints[..|handled.checkpoints|] == handled.checkpoints;
      assert journal.trials == Worked(c, u, key, st.trials);
      var verdict := Verdict(handled.result);
      if verdict.None? {
        return None;
      }
      var (status, payload) := verdict.value;
      CheckpointsKeepRunning(begun, u.id, handled.checkpoints);
      var finished := journal.FinishTrial(u.id, status, payload);
      record := Some(finished.value);
    }

    /** The loop body: reuse, skip, refuse or execute the unit at `i`; `None` when `run` raises here. */
    method VisitUnit(c: Context, i: nat, st: RunState) returns (next: Option<RunState>)
      requires ValidRegistry(c.units) && i < |c.units|
      requires c.producerSha == producerSha && st.trials == journal.trials
      modifies journal
      ensures journal.trials == Visit(c, i, st).Stored()
      ensures next == if Visit(c, i, st).Returned? then Some(Visit(c, i, st).state) else None
    {
      var u := c.units[i];
      if u.id !in c.selected {
        return Some(st);
      }
      if exists d | d in u.dependsOn :: d in st.failed {
        return Some(Skip(u, st));
      }
      var key := CacheKey(c.units, c.values, journal.trials, i);
      if key.None? {
        if exists d | d in u.dependsOn :: !PassRecorded(journal.trials, d) {
          return Some(Skip(u, st));
        }
        return None;
      }
      var previous := journal.Read(u.id);
      if previous.Some? && previous.value.current.cacheKey == key.value {
        if previous.value.current.status == Pass {
          return Some(st.(records := st.records + [previous.value], reused := st.reused + [u.id]));
        }
        if !previous.value.current.status.Resumable() {
          return None;
        }
      }
      if u.id !in c.handlers {
        return None;
      }
      assert Visit(c, i, st) == Execute(c, u, key.value, st);
      var record := ExecuteUnit(c, u, key.value, st);
      if record.None? {
        return None;
      }
      next := Some(st.(
        trials := journal.trials,
        records := st.records + [record.value],
        executed := st.executed + [u.id],
        failed := if record.value.current.status == Pass then st.failed else st.failed + {u.id}));
    }

    /** The loop of `run` over the units in registry order. */
    method VisitAll(c: Context) returns (outcome: Option<RunState>)
      requires ValidRegistry(c.units) && c.producerSha == producerSha
      modifies journal
      ensures journal.trials == RunPrefix(c, |c.units|, old(journal.trials)).Stored()
      ensures
        var spec := RunPrefix(c, |c.units|, old(journal.trials));
        outcome == if spec.Returned? then Some(spec.state) else None
    {
      ghost var start := journal.trials;
      var st := RunState(journal.trials, [], [], [], [], {});
      for i := 0 to |c.units|
        invariant st.trials == journal.trials
        invariant RunPrefix(c, i, start) == Returned(st)
      {
        var next := VisitUnit(c, i, st);
        if next.None? {
          RaisedStays(c, i + 1, |c.units|, start);
          return None;
        }
        st := next.value;
      }
      outcome := Some(st);
    }

    /** One call: of the selected units, or of all when none are named. */
    method Run(handlers: map<string, Handler>, unitIds: Option<set<string>>) returns (outcome: Option<RunState>)
      requires ValidRegistry(units)
      modifies journal
      ensures
        var all := set id | id in Ids(units);
        var spec := RunAll(Context(units, values, producerSha, handlers, if unitIds.Some? then unitIds.value else all), old(journal.trials));
        journal.trials == spec.Stored() && outcome == if spec.Returned? then Some(spec.state) else None
    {
      var selected := if unitIds.Some? then unitIds.value else set id | id in Ids(units);
      var c := Context(units, values, producerSha, handlers, selected);
      if exists id | id in selected :: id !in Ids(units) {
        return None;
      }
      outcome := VisitAll(c);
    }
  }

  /** A handler's own checkpoints leave its trial running under the same key, and all others alone. */
  lemma {:induction false} CheckpointsKeepRunning(trials: Trials, id: string, writes: seq<CheckpointWrite>)
    requires id in trials && trials[id].current.status == Running
    ensures
      var after := WriteCheckpoints(trials, id, writes);
      && id in after
      && after[id].current.status == Running
      && after[id].current.cacheKey == trials[id].current.cacheKey
      && after[id].current.executionAttempt == trials[id].current.executionAttempt
      && after == trials[id := after[id]]
    decreases |writes|
  {
    if writes != [] {
      CheckpointsKeepRunning(trials, id, writes[..|writes| - 1]);
    }
  }
}
