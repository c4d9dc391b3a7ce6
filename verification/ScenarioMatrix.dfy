/**
 * The resumable scenario matrix of `g02_lab.py`, for any number of seeds: one run of
 * `run_gate_scenario_matrix`, and what holds over any number of restarts.
 */
module ScenarioMatrix {
  import opened Prelude
  import opened Json
  import opened Journal
  import opened FlagProtocol

  datatype Seed = Seed(trialId: string, cacheKey: Digest, scenarioId: string, faultClass: string)

  /** The frozen seeds, how a passing result is stored, and how its recovery evidence is read back. */
  datatype Config = Config(
    seeds: seq<Seed>,
    producerSha: string,
    encode: (Seed, ScenarioResult) -> Payload,
    recoveryOf: Payload -> Option<seq<Observation>>)

  ghost predicate Valid(c: Config) {
    && (forall i, j | 0 <= i < j < |c.seeds| :: c.seeds[i].trialId != c.seeds[j].trialId)
    && (forall seed: Seed, r: ScenarioResult :: c.recoveryOf(c.encode(seed, r)) == Some(r.recovery))
  }

  /** How one scenario trial ends; `Escapes` is an exception the matrix does not record. */
  datatype Attempt =
    | Passes(result: ScenarioResult)
    | FailsInfrastructure(reason: string)
    | FailsGovernance(reason: string)
    | Escapes

  /** A passing scenario has proven recovery. */
  ghost predicate Honest(attempts: map<nat, Attempt>) {
    forall n | n in attempts && attempts[n].Passes? :: BothRecovered(attempts[n].result.recovery)
  }

  /** An injection: the seed, and the recovery observations it starts from. */
  datatype Injection = Injection(seed: nat, precondition: Option<seq<Observation>>)

  datatype Progress = Progress(
    trials: Trials,
    completed: seq<nat>,
    recovery: Option<seq<Observation>>,
    injections: seq<Injection>)

  datatype MatrixOutcome =
    | Going(p: Progress)
    | Ended(status: Status, failedSeed: nat, p: Progress)
    | Aborted(p: Progress)

  predicate PassUnder(trials: Trials, seed: Seed) {
    seed.trialId in trials && trials[seed.trialId].current.status == Pass && trials[seed.trialId].current.cacheKey == seed.cacheKey
  }

  predicate StuckUnder(trials: Trials, seed: Seed) {
    && seed.trialId in trials && trials[seed.trialId].current.cacheKey == seed.cacheKey
    && (trials[seed.trialId].current.status == MetricFail || trials[seed.trialId].current.status == Blocked)
  }

  function Opening(seed: Seed): Payload {
    Object(map["scenario_id" := Text(seed.scenarioId), "fault_class" := Text(seed.faultClass)])
  }

  function FailurePayload(seed: Seed, reason: string): Payload {
    Object(map["scenario_id" := Text(seed.scenarioId), "fault_class" := Text(seed.faultClass), "reason" := Text(reason)])
  }

  function Start(c: Config, seed: Seed, trials: Trials): Trials {
    After(trials, Begin(seed.trialId, c.producerSha, seed.cacheKey, Opening(seed)))
  }

  function Close(c: Config, seed: Seed, trials: Trials, status: Status, payload: Payload): Trials {
    After(Start(c, seed, trials), Finish(seed.trialId, status, payload))
  }

  /** The loop body for the seed at `n`. */
  function Step(c: Config, n: nat, p: Progress, attempt: Attempt): MatrixOutcome
    requires n < |c.seeds|
  {
    var seed := c.seeds[n];
    if PassUnder(p.trials, seed) then
      match c.recoveryOf(p.trials[seed.trialId].current.payload)
      case None => Aborted(p)
      case Some(recovery) =>
        if RecoveryState(recovery) != Healthy then Aborted(p)
        else Going(p.(completed := p.completed + [n], recovery := Some(recovery)))
    else if StuckUnder(p.trials, seed) then Ended(p.trials[seed.trialId].current.status, n, p)
    else
      var injected := p.(injections := p.injections + [Injection(n, p.recovery)]);
      match attempt
      case Passes(result) =>
        Going(injected.(trials := Close(c, seed, p.trials, Pass, c.encode(seed, result)),
        completed := p.completed + [n], recovery := Some(result.recovery)))
      case FailsInfrastructure(reason) =>
        Ended(InfraFailed, n, injected.(trials := Close(c, seed, p.trials, InfraFailed, FailurePayload(seed, reason))))
      case FailsGovernance(reason) =>
        Ended(MetricFail, n, injected.(trials := Close(c, seed, p.trials, MetricFail, FailurePayload(seed, reason))))
      case Escapes => Aborted(injected.(trials := Start(c, seed, p.trials)))
  }

  function AttemptAt(attempts: map<nat, Attempt>, n: nat): Attempt {
    if n in attempts then attempts[n] else Escapes
  }

  function Prefix(c: Config, n: nat, trials: Trials, attempts: map<nat, Attempt>): MatrixOutcome
    requires n <= |c.seeds|
  {
    if n == 0 then Going(Progress(trials, [], None, []))
    else match Prefix(c, n - 1, trials, attempts)
      case Going(p) => Step(c, n - 1, p, AttemptAt(attempts, n - 1))
      case Ended(s, k, p) => Ended(s, k, p)
      case Aborted(p) => Aborted(p)
  }

  /** One run of the matrix. */
  function MatrixRun(c: Config, trials: Trials, attempts: map<nat, Attempt>): MatrixOutcome {
    Prefix(c, |c.seeds|, trials, attempts)
  }

  // ---------------------------------------------------------------------------------------------
  // The runner.

  /** How the matrix classifies an exception of a trial. */
  function Classified(error: Error): Attempt {
    match error.kind
    case Infrastructure => FailsInfrastructure(error.message)
    case Governance => FailsGovernance(error.message)
    case Unexpected => Escapes
  }

  /** What one run works with: client and observer, the allowlist, and the packet builder. */
  datatype Lab = Lab(fates: Fates, adapters: map<string, FaultAdapter>, packet: seq<Observation> -> Option<Error>)

  /** A trial and the packet built from it, classified as the matrix records them. */
  function AttemptOf(outcome: ScenarioOutcome, packet: seq<Observation> -> Option<Error>): Attempt {
    match outcome
    case Quarantined(cleanup) => FailsGovernance("scenario cleanup blocked and quarantined the SUT: " + cleanup.message)
    case Failed(error) => Classified(error)
    case Completed(result) => if packet(result.faults).Some? then Classified(packet(result.faults).value) else Passes(result)
  }

  predicate Injects(c: Config, n: nat, trials: Trials)
    requires n < |c.seeds|
  {
    !PassUnder(trials, c.seeds[n]) && !StuckUnder(trials, c.seeds[n])
  }

  /** A run up to some seed: its outcome, the system it leaves, and how the injected seeds ended. */
  datatype Trace = Trace(out: MatrixOutcome, world: World, attempts: map<nat, Attempt>)

  function TraceStep(c: Config, lab: Lab, n: nat, p: Progress, w: World, attempts: map<nat, Attempt>): Trace
    requires n < |c.seeds|
  {
    if !Injects(c, n, p.trials) then Trace(Step(c, n, p, Escapes), w, attempts)
    else
      var run := ScenarioRun(lab.fates, w, lab.adapters, c.seeds[n].faultClass, p.recovery);
      var attempt := AttemptOf(run.out, lab.packet);
      Trace(Step(c, n, p, attempt), run.world, attempts[n := attempt])
  }

  function Traced(c: Config, lab: Lab, n: nat, trials: Trials, w: World): Trace
    requires n <= |c.seeds|
  {
    if n == 0 then Trace(Going(Progress(trials, [], None, [])), w, map[])
    else
      var before := Traced(c, lab, n - 1, trials, w);
      if before.out.Going? then TraceStep(c, lab, n - 1, before.out.p, before.world, before.attempts) else before
  }

  /** One scenario trial on the system, classified as the matrix records it. */
  method AttemptScenario(sut: System, lab: Lab, faultClass: string, precondition: Option<seq<Observation>>) returns (attempt: Attempt)
    requires sut.fates == lab.fates
    modifies sut
    ensures
      var run := ScenarioRun(lab.fates, old(sut.Now()), lab.adapters, faultClass, precondition);
      attempt == AttemptOf(run.out, lab.packet) && sut.Now() == run.world
  {
    var outcome := sut.RunScenario(lab.adapters, faultClass, precondition);
    match outcome {
      case Quarantined(cleanup) => return FailsGovernance("scenario cleanup blocked and quarantined the SUT: " + cleanup.message);
      case Failed(error) => return Classified(error);
      case Completed(result) =>
        var unbuilt := lab.packet(result.faults);
        return if unbuilt.Some? then Classified(unbuilt.value) else Passes(result);
    }
  }

  /** An injected seed: the trial is begun, attempted and recorded as it ended. */
  method InjectSeed(c: Config, n: nat, p: Progress, journal: TrialJournal, sut: System, lab: Lab, ghost attempts: map<nat, Attempt>)
    returns (out: MatrixOutcome, ghost later: map<nat, Attempt>)
    requires n < |c.seeds| && p.trials == journal.trials && sut.fates == lab.fates && Injects(c, n, p.trials)
    modifies journal, sut
    ensures journal.trials == out.p.trials
    ensures Trace(out, sut.Now(), later) == TraceStep(c, lab, n, p, old(sut.Now()), attempts)
  {
    var seed := c.seeds[n];
    var _ := journal.BeginTrial(seed.trialId, c.producerSha, seed.cacheKey, Opening(seed));
    var attempt := AttemptScenario(sut, lab, seed.faultClass, p.recovery);
    later := attempts[n := attempt];
    var injections := p.injections + [Injection(n, p.recovery)];
    match attempt {
      case Passes(result) =>
        var _ := journal.FinishTrial(seed.trialId, Pass, c.encode(seed, result));
        out := Going(Progress(journal.trials, p.completed + [n], Some(result.recovery), injections));
      case FailsInfrastructure(reason) =>
        var _ := journal.FinishTrial(seed.trialId, InfraFailed, FailurePayload(seed, reason));
        out := Ended(InfraFailed, n, p.(trials := journal.trials, injections := injections));
      case FailsGovernance(reason) =>
        var _ := journal.FinishTrial(seed.trialId, MetricFail, FailurePayload(seed, reason));
        out := Ended(MetricFail, n, p.(trials := journal.trials, injections := injections));
      case Escapes =>
        out := Aborted(p.(trials := journal.trials, injections := injections));
    }
  }

  /** The loop body: reuse a pass, stop at a sticky verdict, or inject the seed. */
  method VisitSeed(c: Config, n: nat, p: Progress, journal: TrialJournal, sut: System, lab: Lab, ghost attempts: map<nat, Attempt>)
    returns (out: MatrixOutcome, ghost later: map<nat, Attempt>)
    requires n < |c.seeds| && p.trials == journal.trials && sut.fates == lab.fates
    modifies journal, sut
    ensures journal.trials == out.p.trials
    ensures Trace(out, sut.Now(), later) == TraceStep(c, lab, n, p, old(sut.Now()), attempts)
  {
    later := attempts;
    var seed := c.seeds[n];
    var previous := journal.Read(seed.trialId);
    if previous.Some? && previous.value.current.cacheKey == seed.cacheKey {
      var record := previous.value.current;
      if record.status == Pass {
        var recovery := c.recoveryOf(record.payload);
        if recovery.None? || RecoveryState(recovery.value) != Healthy {
          return Aborted(p), later;
        }
        return Going(p.(completed := p.completed + [n], recovery := recovery)), later;
      }
      if record.status == MetricFail || record.status == Blocked {
        return Ended(record.status, n, p), later;
      }
    }
    out, later := InjectSeed(c, n, p, journal, sut, lab, attempts);
  }

  /** The seed loop, up to the seed it stops at: outcome, journal and system are those of the run function. */
  method RunGateScenarioMatrix(c: Config, journal: TrialJournal, sut: System, lab: Lab)
    returns (out: MatrixOutcome, ghost attempts: map<nat, Attempt>)
    requires sut.fates == lab.fates
    modifies journal, sut
    ensures journal.trials == out.p.trials
    ensures Trace(out, sut.Now(), attempts) == Traced(c, lab, |c.seeds|, old(journal.trials), old(sut.Now()))
  {
    ghost var start, w := journal.trials, sut.Now();
    attempts := map[];
    var n := 0;
    out := Going(Progress(journal.trials, [], None, []));
    while out.Going? && n < |c.seeds|
      invariant n <= |c.seeds| && out.p.trials == journal.trials
      invariant Trace(out, sut.Now(), attempts) == Traced(c, lab, n, start, w)
    {
      out, attempts := VisitSeed(c, n, out.p, journal, sut, lab, attempts);
      n := n + 1;
    }
    TraceStops(c, lab, n, start, w);
  }

  lemma {:induction false} TraceStops(c: Config, lab: Lab, n: nat, trials: Trials, w: World)
    requires n <= |c.seeds| && (n == |c.seeds| || !Traced(c, lab, n, trials, w).out.Going?)
    ensures Traced(c, lab, |c.seeds|, trials, w) == Traced(c, lab, n, trials, w)
    decreases |c.seeds| - n
  {
    if n < |c.seeds| {
      TraceStops(c, lab, n + 1, trials, w);
    }
  }

  /** A trial that passes has proven a healthy recovery and leaves the document as it was. */
  lemma {:induction false} PassIsHonest(lab: Lab, w: World, faultClass: string, precondition: Option<seq<Observation>>)
    ensures
      var run := ScenarioRun(lab.fates, w, lab.adapters, faultClass, precondition);
      var attempt := AttemptOf(run.out, lab.packet);
      attempt.Passes? ==> BothRecovered(attempt.result.recovery) && run.world.document == w.document
  {
    ScenarioCompletesIff(lab.fates, w, lab.adapters, faultClass, precondition);
    ScenarioIsSafe(lab.fates, w, lab.adapters, faultClass, precondition);
  }

  /** What the traced run of the first `n` seeds is, in terms of how the injected ones ended. */
  ghost predicate TraceIsRun(c: Config, n: nat, trials: Trials, w: World, trace: Trace)
    requires n <= |c.seeds|
  {
    && trace.out == Prefix(c, n, trials, trace.attempts)
    && Honest(trace.attempts) && (forall k | k in trace.attempts :: k < n)
    && (trace.out.p.injections == [] ==> trace.world == w)
    && (trace.out.Going? ==> trace.world.document == w.document)
  }

  lemma {:induction false} TraceNext(c: Config, lab: Lab, n: nat, trials: Trials, w: World, before: Trace)
    requires n < |c.seeds| && TraceIsRun(c, n, trials, w, before) && before.out.Going?
    ensures TraceIsRun(c, n + 1, trials, w, TraceStep(c, lab, n, before.out.p, before.world, before.attempts))
  {
    var p := before.out.p;
    if Injects(c, n, p.trials) {
      var run := ScenarioRun(lab.fates, before.world, lab.adapters, c.seeds[n].faultClass, p.recovery);
      var attempt := AttemptOf(run.out, lab.packet);
      PassIsHonest(lab, before.world, c.seeds[n].faultClass, p.recovery);
      LaterAttemptsUnread(c, n, trials, before.attempts, n, attempt);
      StepInjects(c, n, p, attempt);
    }
  }

  lemma StepInjects(c: Config, n: nat, p: Progress, attempt: Attempt)
    requires n < |c.seeds| && Injects(c, n, p.trials)
    ensures Step(c, n, p, attempt).p.injections == p.injections + [Injection(n, p.recovery)]
    ensures Step(c, n, p, attempt).Going? <==> attempt.Passes?
  {
  }

  /**
   * What a run does to system and journal is the run function under the attempts it makes; a pass
   * among them has proven recovery; a run that injects nothing makes no client call and no
   * observation; and one that gets through all seeds leaves the flag document as it found it.
   */
  lemma {:induction false} TracedIsRun(c: Config, lab: Lab, n: nat, trials: Trials, w: World)
    requires n <= |c.seeds|
    ensures TraceIsRun(c, n, trials, w, Traced(c, lab, n, trials, w))
    decreases n
  {
    if n > 0 {
      TracedIsRun(c, lab, n - 1, trials, w);
      var before := Traced(c, lab, n - 1, trials, w);
      if before.out.Going? {
        TraceNext(c, lab, n - 1, trials, w, before);
      }
    }
  }

  /** Once a run has ended or aborted, it stays so. */
  lemma {:induction false} EarlyExit(c: Config, n: nat, trials: Trials, attempts: map<nat, Attempt>)
    requires n <= |c.seeds| && !Prefix(c, n, trials, attempts).Going?
    ensures MatrixRun(c, trials, attempts) == Prefix(c, n, trials, attempts)
    decreases |c.seeds| - n
  {
    if n < |c.seeds| {
      EarlyExit(c, n + 1, trials, attempts);
    }
  }

  /** The first `n` seeds do not look at later attempts. */
  lemma {:induction false} LaterAttemptsUnread(c: Config, n: nat, trials: Trials, attempts: map<nat, Attempt>, k: nat, attempt: Attempt)
    requires n <= |c.seeds| && n <= k
    ensures Prefix(c, n, trials, attempts[k := attempt]) == Prefix(c, n, trials, attempts)
    decreases n
  {
    if n > 0 {
      LaterAttemptsUnread(c, n - 1, trials, attempts, k, attempt);
    }
  }
}
