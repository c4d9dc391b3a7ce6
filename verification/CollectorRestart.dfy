/** A canary run killed while it records its surfaces, and the run after it. */
module CollectorRestart {
  import opened Prelude
  import opened Json
  import opened Journal
  import opened AccessContract
  import opened Collectors
  import opened CollectorTheorems
  import opened CollectorVerdicts

  /** The journal a process leaves that is killed after `k` surfaces, or after beginning one more. */
  function KilledAt(c: Config, ctx: Context, items: seq<Value>, k: nat, begun: bool, trials: Trials): Trials
    requires k < |c.surfaces|
  {
    var recorded := RecordSurfaces(c, ctx, items, k, trials);
    if begun then BeginUnit(c, ctx, Canary(k), recorded) else recorded
  }

  /** A run that has just collected: provisioned, the collection not refused, no surface settled. */
  ghost predicate JustCollected(c: Config, environment: string, trials: Trials) {
    && Coded(c, trials)
    && Reusable(c, environment, Provisioning, trials).Some?
    && Sticky(c, environment, CanaryCollection, trials).None?
    && forall i: nat | i < |c.surfaces| :: !Settled(c, environment, Canary(i), trials)
  }

  /** What the kill leaves: the surfaces recorded, the next one open, and all other units as they were. */
  ghost predicate Left(c: Config, ctx: Context, items: seq<Value>, k: nat, before: Trials, killed: Trials)
    requires k < |c.surfaces|
  {
    && ItemsRecorded(c, ctx, items, k, killed)
    && !Settled(c, ctx.environment, Canary(k), killed)
    && OwnRunning(c, ctx.environment, killed)
    && forall u: Unit | !u.Canary? :: SameTrial(before, killed, c.trial(u))
  }

  lemma {:induction false} KillLeaves(c: Config, ctx: Context, items: seq<Value>, k: nat, begun: bool, trials: Trials)
    requires Valid(c) && k < |c.surfaces| && JustCollected(c, ctx.environment, trials)
    ensures Left(c, ctx, items, k, trials, KilledAt(c, ctx, items, k, begun, trials))
  {
    var recorded := RecordSurfaces(c, ctx, items, k, trials);
    RecordingShape(c, ctx, items, k, trials);
    RecordedLeaves(c, ctx, items, k, trials, recorded);
    if begun {
      BegunLeaves(c, ctx, items, k, trials, recorded);
    }
  }

  lemma {:induction false} RecordedLeaves(c: Config, ctx: Context, items: seq<Value>, k: nat, trials: Trials, recorded: Trials)
    requires Valid(c) && k < |c.surfaces| && JustCollected(c, ctx.environment, trials)
    requires Recorded(c, ctx, items, k, trials, recorded)
    ensures Left(c, ctx, items, k, trials, recorded)
  {
    SameRecord(c, Canary(k), trials, recorded);
    forall i: nat | i < |c.surfaces|
      ensures !IsRunning(recorded, c.trial(Canary(i)))
    {
      if i < k {
        assert Finished(c, ctx, Canary(i), recorded, UnitStatus(SurfaceItem(c, items, i)), SurfaceItem(c, items, i));
      } else {
        assert SameTrial(trials, recorded, c.trial(Canary(i)));
      }
    }
  }

  lemma {:induction false} BegunLeaves(c: Config, ctx: Context, items: seq<Value>, k: nat, trials: Trials, recorded: Trials)
    requires Valid(c) && k < |c.surfaces| && Left(c, ctx, items, k, trials, recorded)
    ensures Left(c, ctx, items, k, trials, BeginUnit(c, ctx, Canary(k), recorded))
  {
    var begun := BeginUnit(c, ctx, Canary(k), recorded);
    BeginShape(c, ctx, Canary(k), recorded);
    forall u: Unit | u != Canary(k)
      ensures SameTrial(recorded, begun, c.trial(u))
    {
      assert c.trial(u) != c.trial(Canary(k));
    }
    forall i: nat | i < k
      ensures Finished(c, ctx, Canary(i), begun, UnitStatus(SurfaceItem(c, items, i)), SurfaceItem(c, items, i))
    {
      assert SameTrial(recorded, begun, c.trial(Canary(i)));
    }
    forall i: nat | i < |c.surfaces| && IsRunning(begun, c.trial(Canary(i)))
      ensures begun[c.trial(Canary(i))].current.cacheKey == UnitKey(c, ctx.environment, Canary(i))
    {
      assert i != k ==> SameTrial(recorded, begun, c.trial(Canary(i)));
    }
  }

  /** The scan of what the kill left: open at the first surface not recorded, unless a recorded one had failed. */
  ghost predicate ScanComplete(c: Config, environment: string, k: nat, trials: Trials)
    requires k <= |c.surfaces|
  {
    ScanSurfaces(c, environment, k, trials).Complete?
  }

  /** The scan of all surfaces finds one that is not recorded. */
  ghost predicate ScanIncomplete(c: Config, environment: string, trials: Trials) {
    ScanSurfaces(c, environment, |c.surfaces|, trials) == Incomplete
  }

  lemma {:induction false} UnsettledStopsScan(c: Config, environment: string, k: nat, trials: Trials)
    requires k < |c.surfaces| && !Settled(c, environment, Canary(k), trials) && ScanComplete(c, environment, k, trials)
    ensures ScanIncomplete(c, environment, trials)
  {
    assert ScanSurfaces(c, environment, k + 1, trials) == Incomplete;
    ScanStops(c, environment, k + 1, trials);
  }

  lemma {:induction false} CleanScanIsComplete(c: Config, ctx: Context, items: seq<Value>, k: nat, killed: Trials)
    requires Valid(c) && k < |c.surfaces| && ItemsRecorded(c, ctx, items, k, killed) && AllClean(c, items, k)
    ensures ScanComplete(c, ctx.environment, k, killed)
  {
    ScanAfterRecording(c, ctx, items, k, killed);
  }

  lemma {:induction false} ScanAfterCleanKill(c: Config, ctx: Context, items: seq<Value>, k: nat, killed: Trials)
    requires Valid(c) && k < |c.surfaces| && ItemsRecorded(c, ctx, items, k, killed) && AllClean(c, items, k)
    requires !Settled(c, ctx.environment, Canary(k), killed)
    ensures ScanIncomplete(c, ctx.environment, killed)
  {
    CleanScanIsComplete(c, ctx, items, k, killed);
    UnsettledStopsScan(c, ctx.environment, k, killed);
  }

  lemma {:induction false} ScanAfterFailedKill(c: Config, ctx: Context, items: seq<Value>, k: nat, killed: Trials)
    requires Valid(c) && k < |c.surfaces| && ItemsRecorded(c, ctx, items, k, killed) && !AllClean(c, items, k)
    ensures ScanSurfaces(c, ctx.environment, |c.surfaces|, killed).Stopped?
    ensures ScanSurfaces(c, ctx.environment, |c.surfaces|, killed).status == MetricFail
  {
    ScanAfterRecording(c, ctx, items, k, killed);
    ScanStops(c, ctx.environment, k, killed);
  }

  lemma {:induction false} ScanAfterKill(c: Config, ctx: Context, items: seq<Value>, k: nat, before: Trials, killed: Trials)
    requires Valid(c) && k < |c.surfaces| && Left(c, ctx, items, k, before, killed)
    ensures
      var scan := ScanSurfaces(c, ctx.environment, |c.surfaces|, killed);
      if AllClean(c, items, k) then scan == Incomplete else scan.Stopped? && scan.status == MetricFail
  {
    if AllClean(c, items, k) {
      ScanAfterCleanKill(c, ctx, items, k, killed);
    } else {
      ScanAfterFailedKill(c, ctx, items, k, killed);
    }
  }

  /**
   * The run after the kill, by any producer in the environment: if a recorded surface had failed it
   * returns that failure without a call; otherwise it asks the backend for the whole collection again.
   */
  lemma {:induction false} KilledRecordingResumes(c: Config, ctx: Context, items: seq<Value>, k: nat, begun: bool, w: World,
                               later: Context, backend: Backend)
    requires Valid(c) && k < |c.surfaces| && JustCollected(c, ctx.environment, w.trials)
    requires later.environment == ctx.environment
    ensures
      var killed := World(KilledAt(c, ctx, items, k, begun, w.trials), w.calls);
      var out := CanaryRun(c, later, killed, backend);
      if AllClean(c, items, k) then out == Collect(c, later, killed, backend) && out.world.calls == w.calls + [CanaryCollection]
      else out.Ended? && out.status == MetricFail && out.world == killed
  {
    var killed := World(KilledAt(c, ctx, items, k, begun, w.trials), w.calls);
    KillLeaves(c, ctx, items, k, begun, w.trials);
    ScanAfterKill(c, ctx, items, k, w.trials, killed.trials);
    SameRecord(c, Provisioning, w.trials, killed.trials);
    SameRecord(c, CanaryCollection, w.trials, killed.trials);
    if AllClean(c, items, k) {
      CollectAsks(c, later, killed, backend);
    }
  }

  lemma CollectAsks(c: Config, ctx: Context, w: World, backend: Backend)
    requires Sticky(c, ctx.environment, CanaryCollection, w.trials).None?
    ensures Collect(c, ctx, w, backend).world.calls == w.calls + [CanaryCollection]
  {
  }

  /** A collection that is answered with a list makes the journal coded, and the surfaces decide the matrix. */
  lemma {:induction false} ListedCollectionDecides(c: Config, ctx: Context, w: World, backend: Backend, result: Document)
    requires Valid(c) && OwnRunning(c, ctx.environment, w.trials) && Sticky(c, ctx.environment, CanaryCollection, w.trials).None?
    requires forall u: Unit | IsUnit(c, u) && !u.Canary? :: CodedRecord(c, u, w.trials)
    requires backend(w.calls + [CanaryCollection]) == Answered(result) && Get(result, "surfaces").Listing?
    ensures
      var out := Collect(c, ctx, w, backend);
      && out.Ended? && Coded(c, out.world.trials)
      && SurfacesDecide(c, ctx.environment, out.world.trials, out.status, out.values)
  {
    var items := Get(result, "surfaces").items;
    var collected := Closed(c, ctx, CanaryCollection, Asked(c, ctx, CanaryCollection, w), Pass, result).trials;
    var after := RecordSurfaces(c, ctx, items, |c.surfaces|, collected);
    CollectionAlone(c, ctx, w, result, collected);
    RecordingShape(c, ctx, items, |c.surfaces|, collected);
    RecordingMakesCoded(c, ctx, items, collected, after);
    ScanAfterRecording(c, ctx, items, |c.surfaces|, after);
    OrderedIsValidIff(c, items);
  }

  lemma {:induction false} CollectionAlone(c: Config, ctx: Context, w: World, result: Document, collected: Trials)
    requires Valid(c) && OwnRunning(c, ctx.environment, w.trials)
    requires forall u: Unit | IsUnit(c, u) && !u.Canary? :: CodedRecord(c, u, w.trials)
    requires collected == Closed(c, ctx, CanaryCollection, Asked(c, ctx, CanaryCollection, w), Pass, result).trials
    ensures OwnRunning(c, ctx.environment, collected)
    ensures forall u: Unit | IsUnit(c, u) && !u.Canary? :: CodedRecord(c, u, collected)
  {
    AskedAndClosed(c, ctx, CanaryCollection, w, Pass, result);
    forall u: Unit | IsUnit(c, u) && u != CanaryCollection
      ensures SameTrial(w.trials, collected, c.trial(u))
    {
      assert c.trial(u) != c.trial(CanaryCollection);
    }
    forall u: Unit | IsUnit(c, u) && !u.Canary?
      ensures CodedRecord(c, u, collected)
    {
      if u != CanaryCollection {
        assert CodedRecord(c, u, w.trials);
        SameRecord(c, u, w.trials, collected);
      }
    }
    forall i: nat | i < |c.surfaces| && IsRunning(collected, c.trial(Canary(i)))
      ensures collected[c.trial(Canary(i))].current.cacheKey == UnitKey(c, ctx.environment, Canary(i))
    {
      assert SameTrial(w.trials, collected, c.trial(Canary(i)));
    }
  }

  /**
   * The collection asked for again mends the journal: once the backend lists, every surface is recorded
   * anew, the journal is one the collectors could have written without the kill, and it decides the matrix.
   */
  lemma {:induction false} KilledRecordingIsMended(c: Config, ctx: Context, items: seq<Value>, k: nat, begun: bool, w: World,
                                later: Context, backend: Backend, result: Document)
    requires Valid(c) && k < |c.surfaces| && JustCollected(c, ctx.environment, w.trials) && AllClean(c, items, k)
    requires later.environment == ctx.environment
    requires backend(w.calls + [CanaryCollection]) == Answered(result) && Get(result, "surfaces").Listing?
    ensures
      var out := CanaryRun(c, later, World(KilledAt(c, ctx, items, k, begun, w.trials), w.calls), backend);
      && out.Ended? && Coded(c, out.world.trials)
      && SurfacesDecide(c, later.environment, out.world.trials, out.status, out.values)
  {
    var killed := World(KilledAt(c, ctx, items, k, begun, w.trials), w.calls);
    KillLeaves(c, ctx, items, k, begun, w.trials);
    KilledRecordingResumes(c, ctx, items, k, begun, w, later, backend);
    SameRecord(c, CanaryCollection, w.trials, killed.trials);
    forall u: Unit | IsUnit(c, u) && !u.Canary?
      ensures CodedRecord(c, u, killed.trials)
    {
      assert CodedRecord(c, u, w.trials);
      SameRecord(c, u, w.trials, killed.trials);
    }
    ListedCollectionDecides(c, later, killed, backend, result);
  }
}
