/** How the trial of a seed ends, what the matrix records of it, and whether the next run injects the seed again. */
module MatrixRestart {
  import opened Prelude
  import opened Json
  import opened Journal
  import opened FlagProtocol
  import opened ScenarioMatrix
  import opened MatrixTheorems

  /** The seed's record after a step: this status under the seed's key, by this producer, with this payload. */
  ghost predicate Recorded(c: Config, n: nat, trials: Trials, status: Status, payload: Payload)
    requires n < |c.seeds|
  {
    && Holds(trials, c.seeds[n], status)
    && trials[c.seeds[n].trialId].current.producerSha == c.producerSha
    && trials[c.seeds[n].trialId].current.payload == payload
  }

  /** An error of a trial or of its packet, by its kind; an exception the matrix does not record leaves the seed running. */
  ghost predicate StopsWith(c: Config, n: nat, kind: Kind, reason: string, out: MatrixOutcome)
    requires n < |c.seeds|
  {
    var why := Object(map["scenario_id" := Text(c.seeds[n].scenarioId), "fault_class" := Text(c.seeds[n].faultClass), "reason" := Text(reason)]);
    match kind
    case Infrastructure => out == Ended(InfraFailed, n, out.p) && Recorded(c, n, out.p.trials, InfraFailed, why)
    case Governance => out == Ended(MetricFail, n, out.p) && Recorded(c, n, out.p.trials, MetricFail, why)
    case Unexpected => out.Aborted? && Recorded(c, n, out.p.trials, Running, Object(map["scenario_id" := Text(c.seeds[n].scenarioId), "fault_class" := Text(c.seeds[n].faultClass)]))
  }

  /** What the ending of a trial means for the run: `out` is what becomes of it. */
  ghost predicate Decides(c: Config, n: nat, p: Progress, trial: ScenarioOutcome, packet: seq<Observation> -> Option<Error>, out: MatrixOutcome)
    requires n < |c.seeds|
  {
    && out.p.injections == p.injections + [Injection(n, p.recovery)]
    && match trial
       case Failed(error) => StopsWith(c, n, error.kind, error.message, out)
       case Quarantined(cleanup) =>
         StopsWith(c, n, Governance, "scenario cleanup blocked and quarantined the SUT: " + cleanup.message, out)
       case Completed(result) =>
         match packet(result.faults)
         case Some(error) => StopsWith(c, n, error.kind, error.message, out)
         case None =>
           out.Going? && out.p.completed == p.completed + [n] && out.p.recovery == Some(result.recovery)
           && Recorded(c, n, out.p.trials, Pass, c.encode(c.seeds[n], result))
  }

  lemma {:induction false} StepStopsWith(c: Config, n: nat, p: Progress, error: Error)
    requires n < |c.seeds| && Injects(c, n, p.trials)
    ensures StopsWith(c, n, error.kind, error.message, Step(c, n, p, Classified(error)))
    ensures Step(c, n, p, Classified(error)).p.injections == p.injections + [Injection(n, p.recovery)]
  {
  }

  lemma {:induction false} OutcomeDecides(c: Config, n: nat, p: Progress, trial: ScenarioOutcome, packet: seq<Observation> -> Option<Error>)
    requires n < |c.seeds| && Injects(c, n, p.trials)
    ensures Decides(c, n, p, trial, packet, Step(c, n, p, AttemptOf(trial, packet)))
  {
    match trial
    case Failed(error) => StepStopsWith(c, n, p, error);
    case Quarantined(_) =>
    case Completed(result) =>
      if packet(result.faults).Some? {
        StepStopsWith(c, n, p, packet(result.faults).value);
      }
  }

  /**
   * What a trial does to the matrix: an infrastructure failure ends it so, a governance error and a
   * quarantine end it as a metric failure, another exception aborts it and leaves the seed running;
   * a completed trial passes if its packet can be built, and otherwise counts as the packet's error.
   */
  lemma {:induction false} TrialDecides(c: Config, lab: Lab, n: nat, p: Progress, w: World, attempts: map<nat, Attempt>, trial: ScenarioOutcome)
    requires n < |c.seeds| && Injects(c, n, p.trials)
    requires trial == ScenarioRun(lab.fates, w, lab.adapters, c.seeds[n].faultClass, p.recovery).out
    ensures Decides(c, n, p, trial, lab.packet, TraceStep(c, lab, n, p, w, attempts).out)
  {
    OutcomeDecides(c, n, p, trial, lab.packet);
  }

  /** The first `m` seeds of the run inject this seed before any other. */
  ghost predicate InjectsFirst(c: Config, m: nat, trials: Trials, attempts: map<nat, Attempt>, n: nat)
    requires m <= |c.seeds|
  {
    var injections := Prefix(c, m, trials, attempts).p.injections;
    injections != [] && injections[0].seed == n
  }

  lemma {:induction false} FirstStays(c: Config, m: nat, trials: Trials, attempts: map<nat, Attempt>, n: nat)
    requires m < |c.seeds| && InjectsFirst(c, m, trials, attempts, n)
    ensures InjectsFirst(c, m + 1, trials, attempts, n)
  {
  }

  lemma {:induction false} SeedIsInjectedNow(c: Config, n: nat, trials: Trials, attempts: map<nat, Attempt>)
    requires n < |c.seeds| && ProvenUpTo(c, n, trials) && Injects(c, n, trials)
    ensures InjectsFirst(c, n + 1, trials, attempts, n)
  {
    ProvenSeedsAreReused(c, n, trials, attempts);
  }

  /** The first injection of a run is that of the first seed it does not reuse, if that seed is open. */
  lemma {:induction false} OpenSeedIsInjected(c: Config, n: nat, trials: Trials, attempts: map<nat, Attempt>, m: nat)
    requires n < m <= |c.seeds| && ProvenUpTo(c, n, trials) && Injects(c, n, trials)
    ensures InjectsFirst(c, m, trials, attempts, n)
    decreases m
  {
    if m == n + 1 {
      SeedIsInjectedNow(c, n, trials, attempts);
    } else {
      OpenSeedIsInjected(c, n, trials, attempts, m - 1);
      FirstStays(c, m - 1, trials, attempts, n);
    }
  }

  /** The record an injected seed is left with when its attempt did not pass. */
  lemma {:induction false} FailedStepRecords(c: Config, n: nat, p: Progress, attempt: Attempt)
    requires n < |c.seeds| && Injects(c, n, p.trials) && !attempt.Passes?
    ensures
      var after := Step(c, n, p, attempt).p.trials;
      && !Step(c, n, p, attempt).Going?
      && (attempt.FailsInfrastructure? || attempt.Escapes? ==> Injects(c, n, after))
      && (attempt.FailsGovernance? ==> Step(c, n, p, attempt) == Ended(MetricFail, n, Step(c, n, p, attempt).p) && StuckUnder(after, c.seeds[n]))
  {
  }

  /** What the next run makes of a seed whose attempt did not pass. */
  ghost predicate RetriedOrRepeated(attempt: Attempt, n: nat, again: MatrixOutcome) {
    && (attempt.FailsInfrastructure? || attempt.Escapes? ==> again.p.injections != [] && again.p.injections[0].seed == n)
    && (attempt.FailsGovernance? ==> again.p.injections == [] && again.Ended? && again.status == MetricFail && again.failedSeed == n)
  }

  lemma {:induction false} NextRunOf(c: Config, n: nat, p: Progress, attempt: Attempt, after: Trials, next: map<nat, Attempt>)
    requires Valid(c) && n < |c.seeds| && Ready(c, n, p) && Injects(c, n, p.trials) && !attempt.Passes?
    requires after == Step(c, n, p, attempt).p.trials
    ensures RetriedOrRepeated(attempt, n, MatrixRun(c, after, next))
  {
    FailedStepRecords(c, n, p, attempt);
    ProvenStays(c, n, p, attempt);
    if attempt.FailsGovernance? {
      StepProves(c, n, p, attempt);
      StickyVerdictRepeats(c, after, MetricFail, n, Step(c, n, p, attempt).p, next);
    } else {
      OpenSeedIsInjected(c, n, after, next, |c.seeds|);
    }
  }

  lemma {:induction false} RunStopsAt(c: Config, start: Trials, attempts: map<nat, Attempt>, n: nat, p: Progress)
    requires n < |c.seeds| && Prefix(c, n, start, attempts) == Going(p)
    requires !Step(c, n, p, AttemptAt(attempts, n)).Going?
    ensures MatrixRun(c, start, attempts) == Step(c, n, p, AttemptAt(attempts, n))
  {
    assert Prefix(c, n + 1, start, attempts) == Step(c, n, p, AttemptAt(attempts, n));
    EarlyExit(c, n + 1, start, attempts);
  }

  /**
   * Where the attempt at a seed did not pass, the run stops there; and the next run, whatever it
   * meets, injects the seed again if the attempt failed by infrastructure or an escaping exception,
   * and otherwise injects nothing and ends with the metric failure.
   */
  lemma {:induction false} InjectedAgainIff(c: Config, start: Trials, attempts: map<nat, Attempt>, n: nat, p: Progress, next: map<nat, Attempt>,
                                            stopped: MatrixOutcome)
    requires Valid(c) && Honest(attempts) && n < |c.seeds|
    requires Prefix(c, n, start, attempts) == Going(p) && Injects(c, n, p.trials) && !AttemptAt(attempts, n).Passes?
    requires stopped == MatrixRun(c, start, attempts)
    ensures stopped == Step(c, n, p, AttemptAt(attempts, n))
    ensures RetriedOrRepeated(AttemptAt(attempts, n), n, MatrixRun(c, stopped.p.trials, next))
  {
    PrefixKeeps(c, n, start, attempts);
    FailedStepRecords(c, n, p, AttemptAt(attempts, n));
    RunStopsAt(c, start, attempts, n, p);
    NextRunOf(c, n, p, AttemptAt(attempts, n), stopped.p.trials, next);
  }

  lemma {:induction false} ProvenStays(c: Config, n: nat, p: Progress, attempt: Attempt)
    requires Valid(c) && n < |c.seeds| && ProvenUpTo(c, n, p.trials)
    ensures ProvenUpTo(c, n, Step(c, n, p, attempt).p.trials)
  {
    forall k | 0 <= k < n ensures Proven(c, Step(c, n, p, attempt).p.trials, c.seeds[k]) {
      assert Proven(c, p.trials, c.seeds[k]);
      StepFrame(c, n, p, attempt, k);
    }
  }
}
