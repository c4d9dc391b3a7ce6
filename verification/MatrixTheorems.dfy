/** What every run of the scenario matrix keeps, and what holds over any number of restarts. */
module MatrixTheorems {
  import opened Prelude
  import opened Journal
  import opened FlagProtocol
  import opened ScenarioMatrix

  /** The seed's record carries this status under the seed's own key. */
  ghost predicate Holds(trials: Trials, seed: Seed, status: Status) {
    && seed.trialId in trials
    && trials[seed.trialId].current.cacheKey == seed.cacheKey && trials[seed.trialId].current.status == status
  }

  /** The seed holds a pass under its key, with evidence of a healthy recovery. */
  ghost predicate Proven(c: Config, trials: Trials, seed: Seed) {
    && Holds(trials, seed, Pass)
    && c.recoveryOf(trials[seed.trialId].current.payload).Some?
    && BothRecovered(c.recoveryOf(trials[seed.trialId].current.payload).value)
  }

  ghost function ProvenRecovery(c: Config, trials: Trials, seed: Seed): seq<Observation>
    requires Proven(c, trials, seed)
  {
    c.recoveryOf(trials[seed.trialId].current.payload).value
  }

  /** All seeds before `n` are proven; this is what lets the seed at `n` start. */
  ghost predicate ProvenUpTo(c: Config, n: nat, trials: Trials)
    requires n <= |c.seeds|
  {
    forall k | 0 <= k < n :: Proven(c, trials, c.seeds[k])
  }

  /** An injection starts from nothing if it is the first seed's, else from the preceding seed's healthy recovery. */
  ghost predicate WellStarted(c: Config, trials: Trials, injection: Injection) {
    && injection.seed < |c.seeds|
    && if injection.seed == 0 then injection.precondition == None
       else Proven(c, trials, c.seeds[injection.seed - 1])
            && injection.precondition == Some(ProvenRecovery(c, trials, c.seeds[injection.seed - 1]))
  }

  ghost predicate Settled(trials: Trials, seed: Seed) {
    Holds(trials, seed, Pass) || Holds(trials, seed, MetricFail) || Holds(trials, seed, Blocked)
  }

  ghost predicate Upto(s: seq<nat>, n: nat) {
    |s| == n && forall i | 0 <= i < n :: s[i] == i
  }

  /** The invariant of the seed loop. */
  ghost predicate Kept(c: Config, n: nat, start: Trials, p: Progress)
    requires n <= |c.seeds|
  {
    && (forall i | 0 <= i < |p.injections| ::
          p.injections[i].seed < n && WellStarted(c, p.trials, p.injections[i]) && !Settled(start, c.seeds[p.injections[i].seed]))
    && (forall k | 0 <= k < |c.seeds| && (k >= n || Settled(start, c.seeds[k])) :: SameTrial(start, p.trials, c.seeds[k].trialId))
  }

  ghost predicate Ready(c: Config, n: nat, p: Progress)
    requires n <= |c.seeds|
  {
    && Upto(p.completed, n) && ProvenUpTo(c, n, p.trials)
    && p.recovery == if n == 0 then None else Some(ProvenRecovery(c, p.trials, c.seeds[n - 1]))
  }

  /** A run that ended at seed `k` did so with its verdict recorded and everything before it proven. */
  ghost predicate EndedAt(c: Config, status: Status, k: nat, p: Progress) {
    && k < |c.seeds| && Upto(p.completed, k) && ProvenUpTo(c, k, p.trials)
    && Holds(p.trials, c.seeds[k], status)
    && (status == MetricFail || status == Blocked || status == InfraFailed)
  }

  /** Closing a trial writes its record under the seed's key, with the given verdict, and no other. */
  lemma CloseShape(c: Config, seed: Seed, trials: Trials, status: Status, payload: Payload)
    requires status.Terminal()
    ensures
      var after := Close(c, seed, trials, status, payload);
      && seed.trialId in after && after == trials[seed.trialId := after[seed.trialId]]
      && after[seed.trialId].current.cacheKey == seed.cacheKey
      && after[seed.trialId].current.status == status
      && after[seed.trialId].current.payload == payload
  {
  }

  /** A step writes no trial but that of its own seed, and none that is settled. */
  lemma {:induction false} StepFrame(c: Config, n: nat, p: Progress, attempt: Attempt, k: nat)
    requires Valid(c) && n < |c.seeds| && k < |c.seeds|
    requires k != n || Settled(p.trials, c.seeds[n])
    ensures SameTrial(p.trials, Step(c, n, p, attempt).p.trials, c.seeds[k].trialId)
  {
    if k != n {
      assert c.seeds[k].trialId != c.seeds[n].trialId;
    }
  }

  /** What a step may change: the trial of its own seed if that is not settled, and one more injection then. */
  ghost predicate Stepped(c: Config, n: nat, p: Progress, after: Progress)
    requires n < |c.seeds|
  {
    && (forall k | 0 <= k < |c.seeds| && (k != n || Settled(p.trials, c.seeds[n])) ::
          SameTrial(p.trials, after.trials, c.seeds[k].trialId))
    && (after.injections == p.injections
        || (after.injections == p.injections + [Injection(n, p.recovery)] && !Settled(p.trials, c.seeds[n])))
  }

  lemma {:induction false} StepIsStepped(c: Config, n: nat, p: Progress, attempt: Attempt)
    requires Valid(c) && n < |c.seeds|
    ensures Stepped(c, n, p, Step(c, n, p, attempt).p)
  {
    forall k | 0 <= k < |c.seeds| && (k != n || Settled(p.trials, c.seeds[n]))
      ensures SameTrial(p.trials, Step(c, n, p, attempt).p.trials, c.seeds[k].trialId)
    {
      StepFrame(c, n, p, attempt, k);
    }
  }

  lemma {:induction false} StartsStay(c: Config, n: nat, p: Progress, after: Progress, injection: Injection)
    requires n < |c.seeds| && Stepped(c, n, p, after)
    requires injection.seed <= n && WellStarted(c, p.trials, injection)
    ensures WellStarted(c, after.trials, injection)
  {
    if injection.seed > 0 {
      assert SameTrial(p.trials, after.trials, c.seeds[injection.seed - 1].trialId);
    }
  }

  lemma {:induction false} StepKeeps(c: Config, n: nat, start: Trials, p: Progress, after: Progress)
    requires n < |c.seeds| && Stepped(c, n, p, after)
    requires Kept(c, n, start, p) && Ready(c, n, p)
    ensures Kept(c, n + 1, start, after)
  {
    assert SameTrial(start, p.trials, c.seeds[n].trialId);
    assert WellStarted(c, p.trials, Injection(n, p.recovery));
    forall k | 0 <= k < |c.seeds| && (k >= n + 1 || Settled(start, c.seeds[k]))
      ensures SameTrial(start, after.trials, c.seeds[k].trialId)
    {
      assert SameTrial(start, p.trials, c.seeds[k].trialId);
      assert SameTrial(p.trials, after.trials, c.seeds[k].trialId);
    }
    forall i | 0 <= i < |after.injections|
      ensures after.injections[i].seed < n + 1 && WellStarted(c, after.trials, after.injections[i])
      ensures !Settled(start, c.seeds[after.injections[i].seed])
    {
      assert i < |p.injections| ==> after.injections[i] == p.injections[i];
      StartsStay(c, n, p, after, after.injections[i]);
    }
  }

  lemma {:induction false} StepProves(c: Config, n: nat, p: Progress, attempt: Attempt)
    requires Valid(c) && n < |c.seeds| && Ready(c, n, p)
    requires attempt.Passes? ==> BothRecovered(attempt.result.recovery)
    ensures Step(c, n, p, attempt).Going? ==> Ready(c, n + 1, Step(c, n, p, attempt).p)
    ensures
      var out := Step(c, n, p, attempt);
      out.Ended? ==> EndedAt(c, out.status, out.failedSeed, out.p)
  {
    var out := Step(c, n, p, attempt);
    forall k | 0 <= k < n
      ensures Proven(c, out.p.trials, c.seeds[k])
    {
      assert Proven(c, p.trials, c.seeds[k]);
      StepFrame(c, n, p, attempt, k);
    }
    if attempt.Passes? {
      CloseShape(c, c.seeds[n], p.trials, Pass, c.encode(c.seeds[n], attempt.result));
      assert c.recoveryOf(c.encode(c.seeds[n], attempt.result)) == Some(attempt.result.recovery);
    }
  }

  /** The loop invariant, for a run that goes on, ended or was aborted. */
  ghost predicate Consistent(c: Config, n: nat, start: Trials, out: MatrixOutcome)
    requires n <= |c.seeds|
  {
    && Kept(c, n, start, out.p)
    && (out.Going? ==> Ready(c, n, out.p))
    && (out.Ended? ==> EndedAt(c, out.status, out.failedSeed, out.p))
  }

  lemma {:induction false} ConsistentStep(c: Config, n: nat, start: Trials, p: Progress, attempt: Attempt)
    requires Valid(c) && n < |c.seeds| && Kept(c, n, start, p) && Ready(c, n, p)
    requires attempt.Passes? ==> BothRecovered(attempt.result.recovery)
    ensures Consistent(c, n + 1, start, Step(c, n, p, attempt))
  {
    StepIsStepped(c, n, p, attempt);
    StepKeeps(c, n, start, p, Step(c, n, p, attempt).p);
    StepProves(c, n, p, attempt);
  }

  lemma KeptLonger(c: Config, n: nat, start: Trials, p: Progress)
    requires n < |c.seeds| && Kept(c, n, start, p)
    ensures Kept(c, n + 1, start, p)
  {
  }

  lemma {:induction false} ConsistentNext(c: Config, n: nat, start: Trials, before: MatrixOutcome, attempt: Attempt, after: MatrixOutcome)
    requires Valid(c) && n < |c.seeds| && Consistent(c, n, start, before) && (attempt.Passes? ==> BothRecovered(attempt.result.recovery))
    requires after == if before.Going? then Step(c, n, before.p, attempt) else before
    ensures Consistent(c, n + 1, start, after)
  {
    if before.Going? {
      ConsistentStep(c, n, start, before.p, attempt);
    } else {
      KeptLonger(c, n, start, before.p);
    }
  }

  lemma PrefixStep(c: Config, n: nat, start: Trials, attempts: map<nat, Attempt>)
    requires n < |c.seeds|
    ensures
      var before := Prefix(c, n, start, attempts);
      Prefix(c, n + 1, start, attempts) == if before.Going? then Step(c, n, before.p, AttemptAt(attempts, n)) else before
  {
  }

  lemma {:induction false} PrefixKeeps(c: Config, n: nat, start: Trials, attempts: map<nat, Attempt>)
    requires Valid(c) && n <= |c.seeds| && Honest(attempts)
    ensures Consistent(c, n, start, Prefix(c, n, start, attempts))
    decreases n
  {
    if n > 0 {
      PrefixKeeps(c, n - 1, start, attempts);
      PrefixStep(c, n - 1, start, attempts);
      ConsistentNext(c, n - 1, start, Prefix(c, n - 1, start, attempts), AttemptAt(attempts, n - 1), Prefix(c, n, start, attempts));
    }
  }

  /**
   * One run, from any journal: a seed that already holds a pass, a metric failure or a blocked
   * verdict under its key is not injected and its record stands; every injection after the first
   * seed's starts from the healthy recovery recorded for the seed before it; and a "pass" lists all
   * seeds in order, each with healthy recovery evidence.
   */
  lemma {:induction false} RunOfTheMatrix(c: Config, start: Trials, attempts: map<nat, Attempt>)
    requires Valid(c) && Honest(attempts)
    ensures
      var out := MatrixRun(c, start, attempts);
      && (forall i | 0 <= i < |out.p.injections| ::
            WellStarted(c, out.p.trials, out.p.injections[i]) && !Settled(start, c.seeds[out.p.injections[i].seed]))
      && (forall k | 0 <= k < |c.seeds| && Settled(start, c.seeds[k]) :: SameTrial(start, out.p.trials, c.seeds[k].trialId))
      && (out.Going? ==> Upto(out.p.completed, |c.seeds|) && ProvenUpTo(c, |c.seeds|, out.p.trials))
      && (out.Ended? ==> EndedAt(c, out.status, out.failedSeed, out.p))
  {
    PrefixKeeps(c, |c.seeds|, start, attempts);
  }

  /** The run has injected this seed. */
  ghost predicate InjectedBy(p: Progress, k: nat) {
    exists i | 0 <= i < |p.injections| :: p.injections[i].seed == k
  }

  /** Each of the first `n` seeds held a verdict under its key from the start, or was injected. */
  ghost predicate ReusedOrInjected(c: Config, n: nat, start: Trials, p: Progress)
    requires n <= |c.seeds|
  {
    forall k: nat | k < n :: Settled(start, c.seeds[k]) || InjectedBy(p, k)
  }

  lemma UnsettledIsInjected(c: Config, n: nat, p: Progress, attempt: Attempt)
    requires n < |c.seeds|
    ensures
      var after := Step(c, n, p, attempt).p;
      && p.injections <= after.injections
      && (!Settled(p.trials, c.seeds[n]) ==> after.injections == p.injections + [Injection(n, p.recovery)])
  {
  }

  lemma {:induction false} InjectionsGrow(c: Config, n: nat, start: Trials, p: Progress, after: Progress)
    requires n < |c.seeds| && ReusedOrInjected(c, n, start, p) && p.injections <= after.injections
    requires !Settled(start, c.seeds[n]) ==> after.injections == p.injections + [Injection(n, p.recovery)]
    ensures ReusedOrInjected(c, n + 1, start, after)
  {
    forall k: nat | k < n && InjectedBy(p, k) ensures InjectedBy(after, k) {
      var i :| 0 <= i < |p.injections| && p.injections[i].seed == k;
      assert after.injections[i] == p.injections[i];
    }
    if !Settled(start, c.seeds[n]) {
      assert after.injections[|p.injections|].seed == n;
    }
  }

  lemma {:induction false} NextReusesOrInjects(c: Config, n: nat, start: Trials, p: Progress, attempt: Attempt, after: MatrixOutcome)
    requires n < |c.seeds| && Kept(c, n, start, p) && ReusedOrInjected(c, n, start, p) && after == Step(c, n, p, attempt)
    ensures ReusedOrInjected(c, n + 1, start, after.p)
  {
    assert SameTrial(start, p.trials, c.seeds[n].trialId);
    UnsettledIsInjected(c, n, p, attempt);
    InjectionsGrow(c, n, start, p, after.p);
  }

  /** A run that is still going has injected every seed it came past and did not find settled. */
  ghost predicate InjectsUnsettled(c: Config, n: nat, start: Trials, out: MatrixOutcome) {
    n <= |c.seeds| && (out.Going? ==> ReusedOrInjected(c, n, start, out.p))
  }

  lemma {:induction false} PrefixInjectsUnsettled(c: Config, n: nat, start: Trials, attempts: map<nat, Attempt>)
    requires Valid(c) && n <= |c.seeds| && Honest(attempts)
    ensures InjectsUnsettled(c, n, start, Prefix(c, n, start, attempts))
    decreases n
  {
    if n > 0 {
      var before, after := Prefix(c, n - 1, start, attempts), Prefix(c, n, start, attempts);
      PrefixInjectsUnsettled(c, n - 1, start, attempts);
      PrefixKeeps(c, n - 1, start, attempts);
      PrefixStep(c, n - 1, start, attempts);
      if before.Going? {
        NextReusesOrInjects(c, n - 1, start, before.p, AttemptAt(attempts, n - 1), after);
      }
    }
  }

  /** In a run that passes, a seed is injected exactly if the journal held no verdict of it under its key. */
  lemma {:induction false} PassInjectsIff(c: Config, start: Trials, attempts: map<nat, Attempt>, k: nat)
    requires Valid(c) && Honest(attempts) && MatrixRun(c, start, attempts).Going? && k < |c.seeds|
    ensures InjectedBy(MatrixRun(c, start, attempts).p, k) <==> !Settled(start, c.seeds[k])
    ensures Settled(start, c.seeds[k]) ==> Proven(c, start, c.seeds[k])
  {
    RunOfTheMatrix(c, start, attempts);
    PrefixInjectsUnsettled(c, |c.seeds|, start, attempts);
    assert Proven(c, MatrixRun(c, start, attempts).p.trials, c.seeds[k]);
  }

  // ---------------------------------------------------------------------------------------------
  // Restarts.

  /** The journal after a number of further runs, each meeting whatever it meets. */
  ghost function Restarted(c: Config, start: Trials, runs: seq<map<nat, Attempt>>): Trials {
    if runs == [] then start else MatrixRun(c, Restarted(c, start, runs[..|runs| - 1]), runs[|runs| - 1]).p.trials
  }

  /** A settled seed stays as it is over every number of restarts. */
  lemma {:induction false} SettledForever(c: Config, start: Trials, runs: seq<map<nat, Attempt>>, k: nat)
    requires Valid(c) && (forall r | r in runs :: Honest(r)) && k < |c.seeds| && Settled(start, c.seeds[k])
    ensures SameTrial(start, Restarted(c, start, runs), c.seeds[k].trialId)
    decreases |runs|
  {
    if runs != [] {
      var before := runs[..|runs| - 1];
      SettledForever(c, start, before, k);
      RunOfTheMatrix(c, Restarted(c, start, before), runs[|runs| - 1]);
    }
  }

  /** A seed that holds a pass is injected by no later run. */
  lemma {:induction false} PassedSeedIsNeverInjectedAgain(c: Config, start: Trials, runs: seq<map<nat, Attempt>>, next: map<nat, Attempt>, k: nat, i: nat)
    requires Valid(c) && (forall r | r in runs :: Honest(r)) && Honest(next)
    requires k < |c.seeds| && Holds(start, c.seeds[k], Pass)
    requires i < |MatrixRun(c, Restarted(c, start, runs), next).p.injections|
    ensures MatrixRun(c, Restarted(c, start, runs), next).p.injections[i].seed != k
  {
    SettledForever(c, start, runs, k);
    RunOfTheMatrix(c, Restarted(c, start, runs), next);
  }

  /** Proven seeds are passed over without an injection. */
  lemma {:induction false} ProvenSeedsAreReused(c: Config, n: nat, start: Trials, attempts: map<nat, Attempt>)
    requires n <= |c.seeds| && ProvenUpTo(c, n, start)
    ensures Prefix(c, n, start, attempts).Going?
    ensures Prefix(c, n, start, attempts).p.trials == start && Prefix(c, n, start, attempts).p.injections == []
    ensures Upto(Prefix(c, n, start, attempts).p.completed, n)
    decreases n
  {
    if n > 0 {
      ProvenSeedsAreReused(c, n - 1, start, attempts);
      assert Proven(c, start, c.seeds[n - 1]);
    }
  }

  /** A run over a journal that stopped at a sticky verdict repeats it: no injection, nothing written. */
  lemma {:induction false} StickyVerdictRepeats(c: Config, trials: Trials, status: Status, k: nat, p: Progress, attempts: map<nat, Attempt>)
    requires EndedAt(c, status, k, p) && status != InfraFailed && p.trials == trials
    ensures
      var again := MatrixRun(c, trials, attempts);
      again.Ended? && again.status == status && again.failedSeed == k
      && again.p.trials == trials && again.p.injections == [] && Upto(again.p.completed, k)
  {
    ProvenSeedsAreReused(c, k, trials, attempts);
    var before := Prefix(c, k, trials, attempts);
    assert StuckUnder(trials, c.seeds[k]);
    assert Prefix(c, k + 1, trials, attempts) == Step(c, k, before.p, AttemptAt(attempts, k));
    EarlyExit(c, k + 1, trials, attempts);
  }

  /**
   * A metric failure or blocked verdict is final: after any number of restarts the journal is
   * unchanged, and the next run returns the same verdict for the same seed without injecting.
   */
  lemma {:induction false} StickyVerdictIsFinal(c: Config, start: Trials, first: map<nat, Attempt>,
                                                runs: seq<map<nat, Attempt>>, next: map<nat, Attempt>)
    requires Valid(c) && Honest(first)
    requires MatrixRun(c, start, first).Ended? && MatrixRun(c, start, first).status != InfraFailed
    ensures
      var stopped := MatrixRun(c, start, first);
      var later := Restarted(c, stopped.p.trials, runs);
      var again := MatrixRun(c, later, next);
      && later == stopped.p.trials
      && again.Ended? && again.status == stopped.status && again.failedSeed == stopped.failedSeed
      && again.p.injections == [] && again.p.trials == stopped.p.trials
    decreases |runs|
  {
    var stopped := MatrixRun(c, start, first);
    RunOfTheMatrix(c, start, first);
    if runs != [] {
      var before := runs[..|runs| - 1];
      StickyVerdictIsFinal(c, start, first, before, runs[|runs| - 1]);
    }
    StickyVerdictRepeats(c, stopped.p.trials, stopped.status, stopped.failedSeed, stopped.p, next);
  }
}
