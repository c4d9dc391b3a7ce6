/** What every history of collector runs keeps: verdicts stay, reuse is free, passing documents are valid. */
module CollectorTheorems {
  import opened Prelude
  import opened Json
  import opened Journal
  import opened AccessContract
  import opened Collectors

  /**
   * The unit's record decides it under this environment, whoever produced it. A pass of the canary
   * collection decides nothing by itself: only the surfaces recorded from it are read again.
   */
  ghost predicate Settled(c: Config, environment: string, u: Unit, trials: Trials)
    requires IsUnit(c, u)
  {
    (u != CanaryCollection && Reusable(c, environment, u, trials).Some?) || Sticky(c, environment, u, trials).Some?
  }

  /** What the collectors demand of a result before they record a pass. */
  ghost predicate GoodResult(c: Config, u: Unit, result: Document)
    requires IsUnit(c, u)
  {
    match u
    case Access(i) =>
      CellWellFormed(c.contracts[i], result) && Get(result, "actual_allow") == Flag(c.contracts[i].expectedAllow)
    case Canary(i) => Get(result, "surface") == Text(c.surfaces[i]) && Clean(result)
    case _ => true
  }

  // ---------------------------------------------------------------------------------------------
  // One record.

  /** A finished record: its status, its key, and a payload bound to the unit and environment. */
  ghost predicate Finished(c: Config, ctx: Context, u: Unit, trials: Trials, status: Status, result: Document)
    requires IsUnit(c, u)
  {
    && c.trial(u) in trials
    && trials[c.trial(u)].current.status == status
    && trials[c.trial(u)].current.cacheKey == UnitKey(c, ctx.environment, u)
    && trials[c.trial(u)].current.payload == BoundPayload(c, ctx, u, result)
  }

  /** The only trial that differs is that of `u`. */
  ghost predicate OnlyTrial(c: Config, u: Unit, before: Trials, after: Trials)
    requires IsUnit(c, u)
  {
    forall id | id != c.trial(u) :: SameTrial(before, after, id)
  }

  lemma BeginShape(c: Config, ctx: Context, u: Unit, trials: Trials)
    requires IsUnit(c, u)
    ensures
      var after := BeginUnit(c, ctx, u, trials);
      && OnlyTrial(c, u, trials, after) && IsRunning(after, c.trial(u))
      && after[c.trial(u)].current.cacheKey == UnitKey(c, ctx.environment, u)
  {
  }

  lemma {:induction false} FinishShape(c: Config, ctx: Context, u: Unit, trials: Trials, status: Status, result: Document)
    requires IsUnit(c, u) && status.Terminal()
    requires IsRunning(trials, c.trial(u)) ==> trials[c.trial(u)].current.cacheKey == UnitKey(c, ctx.environment, u)
    ensures
      var after := FinishUnit(c, ctx, u, trials, status, result);
      OnlyTrial(c, u, trials, after) && Finished(c, ctx, u, after, status, result)
  {
    BeginShape(c, ctx, u, trials);
  }

  /** A finished record settles its unit in its own environment and in no other. */
  lemma {:induction false} FinishedSettles(c: Config, ctx: Context, u: Unit, trials: Trials, status: Status, result: Document, environment: string)
    requires Valid(c) && IsUnit(c, u) && Finished(c, ctx, u, trials, status, result)
    ensures Reusable(c, environment, u, trials) == if status == Pass && environment == ctx.environment then Some(result) else None
    ensures Sticky(c, environment, u, trials)
         == if (status == MetricFail || status == Blocked) && environment == ctx.environment then Some(result) else None
  {
    assert PayloadResult(BoundPayload(c, ctx, u, result), ctx.environment, UnitId(c, u)) == Some(result);
    if environment != ctx.environment {
      assert map["environment" := environment]["environment"] != map["environment" := ctx.environment]["environment"];
    }
  }

  /** How one step of a collector treats a unit it is not settled on: the call it makes, the record it leaves. */
  ghost predicate Executed(c: Config, ctx: Context, u: Unit, w: World, after: World)
    requires IsUnit(c, u)
  {
    && after.calls == w.calls + [u]
    && OnlyTrial(c, u, w.trials, after.trials)
    && c.trial(u) in after.trials
    && after.trials[c.trial(u)].current.cacheKey == UnitKey(c, ctx.environment, u)
  }

  lemma {:induction false} AskedAndClosed(c: Config, ctx: Context, u: Unit, w: World, status: Status, result: Document)
    requires IsUnit(c, u) && status.Terminal()
    ensures
      var after := Closed(c, ctx, u, Asked(c, ctx, u, w), status, result);
      Executed(c, ctx, u, w, after) && Finished(c, ctx, u, after.trials, status, result)
  {
    BeginShape(c, ctx, u, w.trials);
    FinishShape(c, ctx, u, Asked(c, ctx, u, w).trials, status, result);
  }

  lemma {:induction false} AskedShape(c: Config, ctx: Context, u: Unit, w: World)
    requires IsUnit(c, u)
    ensures Executed(c, ctx, u, w, Asked(c, ctx, u, w)) && IsRunning(Asked(c, ctx, u, w).trials, c.trial(u))
  {
    BeginShape(c, ctx, u, w.trials);
  }

  // ---------------------------------------------------------------------------------------------
  // The invariant of code-written journals.

  /** Every passing record is bound to its unit and holds a result good enough for it. */
  ghost predicate CodedRecord(c: Config, u: Unit, trials: Trials)
    requires IsUnit(c, u)
  {
    forall environment: string :: Reusable(c, environment, u, trials).Some? ==>
      GoodResult(c, u, Reusable(c, environment, u, trials).value)
  }

  /** The surfaces are recorded together: all of them, finished, in one environment. */
  ghost predicate CodedSurfaces(c: Config, trials: Trials) {
    && (forall i: nat | i < |c.surfaces| :: !IsRunning(trials, c.trial(Canary(i))))
    && (forall environment: string, i: nat, j: nat | i < |c.surfaces| && j < |c.surfaces| ::
          Settled(c, environment, Canary(i), trials) ==> Settled(c, environment, Canary(j), trials))
  }

  ghost predicate Coded(c: Config, trials: Trials) {
    && (forall u: Unit | IsUnit(c, u) :: CodedRecord(c, u, trials))
    && CodedSurfaces(c, trials)
  }

  lemma SameRecord(c: Config, u: Unit, before: Trials, after: Trials)
    requires IsUnit(c, u) && SameTrial(before, after, c.trial(u))
    ensures forall environment: string :: Reusable(c, environment, u, after) == Reusable(c, environment, u, before)
    ensures forall environment: string :: Sticky(c, environment, u, after) == Sticky(c, environment, u, before)
    ensures IsRunning(after, c.trial(u)) == IsRunning(before, c.trial(u))
  {
  }

  /** Writing one record other than a surface's keeps the journal coded, if that record is. */
  lemma {:induction false} OneRecordKeepsCoded(c: Config, u: Unit, before: Trials, after: Trials)
    requires Valid(c) && IsUnit(c, u) && !u.Canary? && Coded(c, before) && OnlyTrial(c, u, before, after)
    requires CodedRecord(c, u, after)
    ensures Coded(c, after)
  {
    forall v: Unit | IsUnit(c, v) && v != u
      ensures CodedRecord(c, v, after)
    {
      assert c.trial(v) != c.trial(u);
      SameRecord(c, v, before, after);
    }
    SurfacesUntouched(c, u, before, after);
  }

  lemma {:induction false} SurfacesUntouched(c: Config, u: Unit, before: Trials, after: Trials)
    requires Valid(c) && IsUnit(c, u) && !u.Canary? && CodedSurfaces(c, before) && OnlyTrial(c, u, before, after)
    ensures CodedSurfaces(c, after)
  {
    forall i: nat | i < |c.surfaces|
      ensures !IsRunning(after, c.trial(Canary(i)))
      ensures forall environment: string :: Settled(c, environment, Canary(i), after) == Settled(c, environment, Canary(i), before)
    {
      assert c.trial(Canary(i)) != c.trial(u);
      SameRecord(c, Canary(i), before, after);
    }
  }

  /** Closing a unit as it should be closed keeps the journal coded. */
  lemma {:induction false} ClosingKeepsCoded(c: Config, ctx: Context, u: Unit, w: World, status: Status, result: Document)
    requires Valid(c) && IsUnit(c, u) && !u.Canary? && Coded(c, w.trials) && status.Terminal()
    requires status == Pass ==> GoodResult(c, u, result)
    ensures Coded(c, Closed(c, ctx, u, Asked(c, ctx, u, w), status, result).trials)
  {
    var after := Closed(c, ctx, u, Asked(c, ctx, u, w), status, result);
    AskedAndClosed(c, ctx, u, w, status, result);
    forall environment: string
      ensures Reusable(c, environment, u, after.trials).Some? ==>
                GoodResult(c, u, Reusable(c, environment, u, after.trials).value)
    {
      FinishedSettles(c, ctx, u, after.trials, status, result, environment);
    }
    OneRecordKeepsCoded(c, u, w.trials, after.trials);
  }

  lemma {:induction false} AskingKeepsCoded(c: Config, ctx: Context, u: Unit, w: World)
    requires Valid(c) && IsUnit(c, u) && !u.Canary? && Coded(c, w.trials)
    ensures Coded(c, Asked(c, ctx, u, w).trials)
  {
    AskedShape(c, ctx, u, w);
    OneRecordKeepsCoded(c, u, w.trials, Asked(c, ctx, u, w).trials);
  }

  // ---------------------------------------------------------------------------------------------
  // What a run keeps: settled units are neither asked for nor written.

  ghost predicate Kept(c: Config, environment: string, w: World, after: World) {
    && w.calls <= after.calls
    && forall u: Unit | IsUnit(c, u) && Settled(c, environment, u, w.trials) ::
         SameTrial(w.trials, after.trials, c.trial(u)) && u !in after.calls[|w.calls|..]
  }

  lemma {:induction false} KeptTwice(c: Config, environment: string, a: World, b: World, d: World)
    requires Kept(c, environment, a, b) && Kept(c, environment, b, d)
    ensures Kept(c, environment, a, d)
  {
    assert d.calls[|a.calls|..] == b.calls[|a.calls|..] + d.calls[|b.calls|..];
    forall u: Unit | IsUnit(c, u) && Settled(c, environment, u, a.trials)
      ensures SameTrial(a.trials, d.trials, c.trial(u)) && u !in d.calls[|a.calls|..]
    {
      SameRecord(c, u, a.trials, b.trials);
    }
  }

  lemma {:induction false} ExecutingKeeps(c: Config, ctx: Context, u: Unit, w: World, after: World)
    requires Valid(c) && IsUnit(c, u) && !Settled(c, ctx.environment, u, w.trials) && Executed(c, ctx, u, w, after)
    ensures Kept(c, ctx.environment, w, after)
  {
    assert after.calls[|w.calls|..] == [u];
    forall v: Unit | IsUnit(c, v) && Settled(c, ctx.environment, v, w.trials)
      ensures SameTrial(w.trials, after.trials, c.trial(v)) && v !in after.calls[|w.calls|..]
    {
      assert c.trial(v) != c.trial(u);
    }
  }

  /** Asking for an unsettled unit, then possibly closing it, is a good step. */
  ghost predicate GoodStep(c: Config, ctx: Context, w: World, after: World) {
    Kept(c, ctx.environment, w, after) && (Coded(c, w.trials) ==> Coded(c, after.trials))
  }

  lemma {:induction false} GoodAsk(c: Config, ctx: Context, u: Unit, w: World)
    requires Valid(c) && IsUnit(c, u) && !u.Canary? && !Settled(c, ctx.environment, u, w.trials)
    ensures GoodStep(c, ctx, w, Asked(c, ctx, u, w))
    ensures OnlyTrial(c, u, w.trials, Asked(c, ctx, u, w).trials)
  {
    AskedShape(c, ctx, u, w);
    ExecutingKeeps(c, ctx, u, w, Asked(c, ctx, u, w));
    if Coded(c, w.trials) {
      AskingKeepsCoded(c, ctx, u, w);
    }
  }

  lemma {:induction false} GoodClose(c: Config, ctx: Context, u: Unit, w: World, status: Status, result: Document)
    requires Valid(c) && IsUnit(c, u) && !u.Canary? && !Settled(c, ctx.environment, u, w.trials) && status.Terminal()
    requires status == Pass ==> GoodResult(c, u, result)
    ensures GoodStep(c, ctx, w, Closed(c, ctx, u, Asked(c, ctx, u, w), status, result))
    ensures OnlyTrial(c, u, w.trials, Closed(c, ctx, u, Asked(c, ctx, u, w), status, result).trials)
    ensures
      var after := Closed(c, ctx, u, Asked(c, ctx, u, w), status, result);
      && Reusable(c, ctx.environment, u, after.trials) == (if status == Pass then Some(result) else None)
      && Sticky(c, ctx.environment, u, after.trials) == (if status == MetricFail || status == Blocked then Some(result) else None)
      && c.trial(u) in after.trials && StatusOf(c, u, after.trials) == status
  {
    var after := Closed(c, ctx, u, Asked(c, ctx, u, w), status, result);
    AskedAndClosed(c, ctx, u, w, status, result);
    ExecutingKeeps(c, ctx, u, w, after);
    FinishedSettles(c, ctx, u, after.trials, status, result, ctx.environment);
    if Coded(c, w.trials) {
      ClosingKeepsCoded(c, ctx, u, w, status, result);
    }
  }

  // ---------------------------------------------------------------------------------------------
  // Provisioning and the access matrix.

  /** The canary matrix's own records are as they were. */
  ghost predicate SurfacesAlone(c: Config, before: Trials, after: Trials) {
    && SameTrial(before, after, c.trial(CanaryCollection))
    && forall i: nat | i < |c.surfaces| :: SameTrial(before, after, c.trial(Canary(i)))
  }

  lemma {:induction false} ElsewhereSurfacesAlone(c: Config, u: Unit, before: Trials, after: Trials)
    requires Valid(c) && IsUnit(c, u) && (u.Access? || u.Provisioning?) && OnlyTrial(c, u, before, after)
    ensures SurfacesAlone(c, before, after)
  {
    assert c.trial(CanaryCollection) != c.trial(u);
    forall i: nat | i < |c.surfaces|
      ensures SameTrial(before, after, c.trial(Canary(i)))
    {
      assert c.trial(Canary(i)) != c.trial(u);
    }
  }

  ghost predicate ProvisionOutcome(c: Config, ctx: Context, w: World, backend: Backend, out: Outcome) {
    && AccessProgress(c, ctx, w, out.world)
    && (out.Going? ==> out.values == [] && Reusable(c, ctx.environment, Provisioning, out.world.trials).Some?)
    && (out.Ended? ==> out.values == [] && (out.status == InfraFailed || out.status == Blocked))
    && (out.Ended? && out.status == Blocked ==> Sticky(c, ctx.environment, Provisioning, out.world.trials).Some?)
    && (out.Raised? ==> out.world.calls != [] && backend(out.world.calls) == Escapes)
  }

  lemma {:induction false} AskIsGood(c: Config, ctx: Context, w: World, backend: Backend)
    requires Valid(c) && !Settled(c, ctx.environment, Provisioning, w.trials)
    ensures ProvisionOutcome(c, ctx, w, backend, AskForProvisioning(c, ctx, w, backend))
  {
    GoodAsk(c, ctx, Provisioning, w);
    match backend(Asked(c, ctx, Provisioning, w).calls)
    case Escapes =>
    case Infrastructure(reason) => GoodClose(c, ctx, Provisioning, w, InfraFailed, Reason(reason));
    case Refused(reason) => GoodClose(c, ctx, Provisioning, w, Blocked, Reason(reason));
    case Answered(result) =>
      GoodClose(c, ctx, Provisioning, w, if ProvisioningValid(ctx, result) then Pass else Blocked, result);
    ElsewhereSurfacesAlone(c, Provisioning, w.trials, AskForProvisioning(c, ctx, w, backend).world.trials);
  }

  /** Provisioning ends either ready, with its record reusable, or with its verdict on record. */
  lemma {:induction false} ProvisionIsGood(c: Config, ctx: Context, w: World, backend: Backend)
    requires Valid(c)
    ensures ProvisionOutcome(c, ctx, w, backend, Provision(c, ctx, w, backend))
  {
    if !Settled(c, ctx.environment, Provisioning, w.trials) {
      AskIsGood(c, ctx, w, backend);
    }
  }

  function Cell(c: Config, i: nat, result: Document): Document
    requires i < |c.contracts|
  {
    c.contracts[i].Fields() + result
  }

  /** The cells the first `n` reusable records contribute. */
  function CellsOf(c: Config, environment: string, n: nat, trials: Trials): seq<Document>
    requires n <= |c.contracts|
  {
    if n == 0 then [] else
      match Reusable(c, environment, Access(n - 1), trials)
      case None => CellsOf(c, environment, n - 1, trials)
      case Some(result) => CellsOf(c, environment, n - 1, trials) + [Cell(c, n - 1, result)]
  }

  /** Provisioned, and the first `n` cells reusable. */
  ghost predicate ReusableUpTo(c: Config, environment: string, n: nat, trials: Trials)
    requires n <= |c.contracts|
  {
    && Reusable(c, environment, Provisioning, trials).Some?
    && forall k: nat | k < n :: Reusable(c, environment, Access(k), trials).Some?
  }

  /** The first `n` cells passed and the next has this verdict on record. */
  ghost predicate StuckAt(c: Config, environment: string, n: nat, trials: Trials, status: Status, cells: seq<Document>)
    requires n < |c.contracts|
  {
    var u := Access(n);
    && ReusableUpTo(c, environment, n, trials)
    && Sticky(c, environment, u, trials).Some? && status == StatusOf(c, u, trials)
    && cells == CellsOf(c, environment, n, trials)
       + if status == MetricFail then [Cell(c, n, Sticky(c, environment, u, trials).value)] else []
  }

  /** What one step of the access matrix leaves behind. */
  ghost predicate CellOutcome(c: Config, ctx: Context, i: nat, w: World, cells: seq<Document>, backend: Backend, out: Outcome)
    requires i < |c.contracts|
  {
    var u := Access(i);
    && AccessProgress(c, ctx, w, out.world)
    && (out.Going? ==>
          && Reusable(c, ctx.environment, u, out.world.trials).Some?
          && out.values == cells + [Cell(c, i, Reusable(c, ctx.environment, u, out.world.trials).value)])
    && (out.Ended? ==>
          || (out.status == InfraFailed && out.values == cells)
          || (&& Sticky(c, ctx.environment, u, out.world.trials).Some? && out.status == StatusOf(c, u, out.world.trials)
              && out.values == cells + if out.status == MetricFail
                   then [Cell(c, i, Sticky(c, ctx.environment, u, out.world.trials).value)] else []))
    && (out.Raised? ==> out.world.calls != [] && backend(out.world.calls) == Escapes)
  }

  lemma {:induction false} AnswerIsGood(c: Config, ctx: Context, i: nat, w: World, cells: seq<Document>, backend: Backend, result: Document)
    requires Valid(c) && i < |c.contracts| && !Settled(c, ctx.environment, Access(i), w.trials)
    requires backend(Asked(c, ctx, Access(i), w).calls) == Answered(result)
    ensures CellOutcome(c, ctx, i, w, cells, backend, ExecuteCell(c, ctx, i, w, cells, backend))
  {
    var u := Access(i);
    var status := if !CellWellFormed(c.contracts[i], result) then Blocked
                  else if Get(result, "actual_allow") == Flag(c.contracts[i].expectedAllow) then Pass else MetricFail;
    GoodClose(c, ctx, u, w, status, result);
    ElsewhereSurfacesAlone(c, u, w.trials, Closed(c, ctx, u, Asked(c, ctx, u, w), status, result).trials);
  }

  lemma {:induction false} NoAnswerIsGood(c: Config, ctx: Context, i: nat, w: World, cells: seq<Document>, backend: Backend)
    requires Valid(c) && i < |c.contracts| && !Settled(c, ctx.environment, Access(i), w.trials)
    requires !backend(Asked(c, ctx, Access(i), w).calls).Answered?
    ensures CellOutcome(c, ctx, i, w, cells, backend, ExecuteCell(c, ctx, i, w, cells, backend))
  {
    var u := Access(i);
    GoodAsk(c, ctx, u, w);
    match backend(Asked(c, ctx, u, w).calls)
    case Escapes =>
    case Infrastructure(reason) => GoodClose(c, ctx, u, w, InfraFailed, Reason(reason));
    case Refused(reason) => GoodClose(c, ctx, u, w, Blocked, Reason(reason));
    ElsewhereSurfacesAlone(c, u, w.trials, ExecuteCell(c, ctx, i, w, cells, backend).world.trials);
  }

  lemma {:induction false} ExecuteIsGood(c: Config, ctx: Context, i: nat, w: World, cells: seq<Document>, backend: Backend)
    requires Valid(c) && i < |c.contracts| && !Settled(c, ctx.environment, Access(i), w.trials)
    ensures CellOutcome(c, ctx, i, w, cells, backend, ExecuteCell(c, ctx, i, w, cells, backend))
  {
    match backend(Asked(c, ctx, Access(i), w).calls)
    case Answered(result) => AnswerIsGood(c, ctx, i, w, cells, backend, result);
    case _ => NoAnswerIsGood(c, ctx, i, w, cells, backend);
  }

  lemma {:induction false} StepIsGood(c: Config, ctx: Context, i: nat, w: World, cells: seq<Document>, backend: Backend)
    requires Valid(c) && i < |c.contracts|
    ensures CellOutcome(c, ctx, i, w, cells, backend, AccessStep(c, ctx, i, w, cells, backend))
  {
    if !Settled(c, ctx.environment, Access(i), w.trials) {
      ExecuteIsGood(c, ctx, i, w, cells, backend);
    }
  }

  lemma {:induction false} CellsStay(c: Config, environment: string, n: nat, before: Trials, after: Trials)
    requires n <= |c.contracts|
    requires forall k: nat | k < n :: Reusable(c, environment, Access(k), after) == Reusable(c, environment, Access(k), before)
    ensures CellsOf(c, environment, n, after) == CellsOf(c, environment, n, before)
    decreases n
  {
    if n > 0 {
      CellsStay(c, environment, n - 1, before, after);
    }
  }

  /** What a good step leaves of the reusable prefix. */
  lemma {:induction false} ReusableStays(c: Config, environment: string, n: nat, w: World, after: World)
    requires n <= |c.contracts| && ReusableUpTo(c, environment, n, w.trials) && Kept(c, environment, w, after)
    ensures ReusableUpTo(c, environment, n, after.trials)
    ensures CellsOf(c, environment, n, after.trials) == CellsOf(c, environment, n, w.trials)
  {
    SameRecord(c, Provisioning, w.trials, after.trials);
    forall k: nat | k < n
      ensures Reusable(c, environment, Access(k), after.trials) == Reusable(c, environment, Access(k), w.trials)
    {
      assert Settled(c, environment, Access(k), w.trials);
      SameRecord(c, Access(k), w.trials, after.trials);
    }
    CellsStay(c, environment, n, w.trials, after.trials);
  }

  /** The progress of a step: what was settled stays, the journal stays coded, surfaces are left alone. */
  ghost predicate AccessProgress(c: Config, ctx: Context, w: World, after: World) {
    GoodStep(c, ctx, w, after) && SurfacesAlone(c, w.trials, after.trials)
  }

  lemma {:induction false} ProgressTwice(c: Config, ctx: Context, a: World, b: World, d: World)
    requires AccessProgress(c, ctx, a, b) && AccessProgress(c, ctx, b, d)
    ensures AccessProgress(c, ctx, a, d)
  {
    KeptTwice(c, ctx.environment, a, b, d);
    AloneTwice(c, a.trials, b.trials, d.trials);
  }

  lemma {:induction false} AloneTwice(c: Config, a: Trials, b: Trials, d: Trials)
    requires SurfacesAlone(c, a, b) && SurfacesAlone(c, b, d)
    ensures SurfacesAlone(c, a, d)
  {
    forall i: nat | i < |c.surfaces|
      ensures SameTrial(a, d, c.trial(Canary(i)))
    {
      assert SameTrial(a, b, c.trial(Canary(i)));
    }
  }

  /** A verdict on record: of provisioning, or of the first cell that did not pass. */
  ghost predicate Stuck(c: Config, environment: string, trials: Trials, status: Status, cells: seq<Document>) {
    || (status == Blocked && cells == [] && Sticky(c, environment, Provisioning, trials).Some?)
    || exists k: nat :: k < |c.contracts| && StuckAt(c, environment, k, trials, status, cells)
  }

  /** The invariant of the cell loop. */
  ghost predicate PrefixOutcome(c: Config, ctx: Context, n: nat, w: World, backend: Backend, out: Outcome)
    requires n <= |c.contracts|
  {
    && AccessProgress(c, ctx, w, out.world)
    && (out.Going? ==>
          ReusableUpTo(c, ctx.environment, n, out.world.trials) && out.values == CellsOf(c, ctx.environment, n, out.world.trials))
    && (out.Ended? ==> out.status == InfraFailed || Stuck(c, ctx.environment, out.world.trials, out.status, out.values))
    && (out.Raised? ==> out.world.calls != [] && backend(out.world.calls) == Escapes)
  }

  lemma {:induction false} CellExtendsPrefix(c: Config, ctx: Context, n: nat, now: World, backend: Backend, out: Outcome)
    requires n < |c.contracts| && ReusableUpTo(c, ctx.environment, n, now.trials)
    requires CellOutcome(c, ctx, n, now, CellsOf(c, ctx.environment, n, now.trials), backend, out)
    ensures out.Going? ==>
              && ReusableUpTo(c, ctx.environment, n + 1, out.world.trials)
              && out.values == CellsOf(c, ctx.environment, n + 1, out.world.trials)
    ensures out.Ended? ==> out.status == InfraFailed || Stuck(c, ctx.environment, out.world.trials, out.status, out.values)
  {
    ReusableStays(c, ctx.environment, n, now, out.world);
    if out.Ended? && out.status != InfraFailed {
      assert StuckAt(c, ctx.environment, n, out.world.trials, out.status, out.values);
    }
  }

  ghost predicate GoodPrefix(c: Config, ctx: Context, n: nat, w: World, backend: Backend) {
    n <= |c.contracts| && PrefixOutcome(c, ctx, n, w, backend, AccessPrefix(c, ctx, n, w, backend))
  }

  lemma {:induction false} PrefixNext(c: Config, ctx: Context, n: nat, w: World, backend: Backend)
    requires Valid(c) && n < |c.contracts| && GoodPrefix(c, ctx, n, w, backend)
    ensures GoodPrefix(c, ctx, n + 1, w, backend)
  {
    var before := AccessPrefix(c, ctx, n, w, backend);
    if before.Going? {
      PrefixContinues(c, ctx, n, w, backend, before.world, AccessStep(c, ctx, n, before.world, before.values, backend));
    }
  }

  /** Every prefix of the access matrix makes progress and leaves its verdict on record. */
  lemma {:induction false} PrefixIsGood(c: Config, ctx: Context, n: nat, w: World, backend: Backend)
    requires Valid(c) && n <= |c.contracts|
    ensures PrefixOutcome(c, ctx, n, w, backend, AccessPrefix(c, ctx, n, w, backend))
  {
    ProvisionIsGood(c, ctx, w, backend);
    forall k: nat | k < n && GoodPrefix(c, ctx, k, w, backend)
      ensures GoodPrefix(c, ctx, k + 1, w, backend)
    {
      PrefixNext(c, ctx, k, w, backend);
    }
    Induction(n, (k: nat) => GoodPrefix(c, ctx, k, w, backend));
  }

  lemma {:induction false} PrefixContinues(c: Config, ctx: Context, n: nat, w: World, backend: Backend, now: World, out: Outcome)
    requires Valid(c) && n < |c.contracts|
    requires AccessProgress(c, ctx, w, now) && ReusableUpTo(c, ctx.environment, n, now.trials)
    requires out == AccessStep(c, ctx, n, now, CellsOf(c, ctx.environment, n, now.trials), backend)
    ensures PrefixOutcome(c, ctx, n + 1, w, backend, out)
  {
    StepIsGood(c, ctx, n, now, CellsOf(c, ctx.environment, n, now.trials), backend);
    ProgressTwice(c, ctx, w, now, out.world);
    CellExtendsPrefix(c, ctx, n, now, backend, out);
  }
}
