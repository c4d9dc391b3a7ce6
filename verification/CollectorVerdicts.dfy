/** Verdicts of the access and canary matrices over any number of runs, producers and backends. */
module CollectorVerdicts {
  import opened Prelude
  import opened Json
  import opened Journal
  import opened AccessContract
  import opened Collectors
  import opened CollectorTheorems

  // ---------------------------------------------------------------------------------------------
  // A complete access matrix satisfies its validator.

  /** The cells of a list of recorded results. */
  function CellsFrom(c: Config, results: seq<Document>): seq<Document>
    requires |results| <= |c.contracts|
  {
    seq(|results|, k requires 0 <= k < |results| => Cell(c, k, results[k]))
  }

  lemma CellsFromGrow(c: Config, results: seq<Document>, result: Document)
    requires |results| < |c.contracts|
    ensures CellsFrom(c, results + [result]) == CellsFrom(c, results) + [Cell(c, |results|, result)]
  {
  }

  lemma CellsGrow(c: Config, environment: string, n: nat, trials: Trials, result: Document)
    requires n < |c.contracts| && Reusable(c, environment, Access(n), trials) == Some(result)
    ensures CellsOf(c, environment, n + 1, trials) == CellsOf(c, environment, n, trials) + [Cell(c, n, result)]
  {
  }

  /** The results a complete prefix of the matrix has on record. */
  lemma {:induction false} RecordedResults(c: Config, environment: string, n: nat, trials: Trials) returns (results: seq<Document>)
    requires n <= |c.contracts| && ReusableUpTo(c, environment, n, trials)
    ensures |results| == n && CellsOf(c, environment, n, trials) == CellsFrom(c, results)
    ensures forall k: nat | k < n :: Reusable(c, environment, Access(k), trials) == Some(results[k])
    decreases n
  {
    if n == 0 {
      results := [];
    } else {
      var before := RecordedResults(c, environment, n - 1, trials);
      var result := Reusable(c, environment, Access(n - 1), trials).value;
      CellsGrow(c, environment, n - 1, trials, result);
      CellsFromGrow(c, before, result);
      results := before + [result];
    }
  }

  lemma GoodCell(c: Config, k: nat, result: Document)
    requires k < |c.contracts| && GoodResult(c, Access(k), result)
    ensures CellHolds(c, k, Cell(c, k, result))
  {
  }

  /** The cell names its contract, allows what is expected, and carries evidence. */
  ghost predicate CellHolds(c: Config, k: nat, cell: Document)
    requires k < |c.contracts|
  {
    && Get(cell, "cell_id") == Text(c.contracts[k].cellId)
    && Get(cell, "actual_allow") == Flag(c.contracts[k].expectedAllow)
    && Truthy(Get(cell, "artifact_ref"))
  }

  lemma {:induction false} CellsThatHold(c: Config, cells: seq<Document>)
    requires Valid(c) && |cells| == |c.contracts| && forall k: nat | k < |cells| :: CellHolds(c, k, cells[k])
    ensures LiveAccessValid(c, cells)
  {
    forall i | 0 <= i < |cells|
      ensures Get(cells[i], "cell_id") == Text(c.contracts[i].cellId) && IsRegistered(c, cells[i])
    {
      assert CellHolds(c, i, cells[i]);
    }
    forall j: nat | j < |c.contracts|
      ensures LastCell(cells, |cells|, Text(c.contracts[j].cellId)) == Some(cells[j]) && CellHolds(c, j, cells[j])
    {
      LastCellFound(c, cells, |cells|, j);
    }
  }

  lemma {:induction false} LastCellFound(c: Config, cells: seq<Document>, n: nat, j: nat)
    requires Valid(c) && j < n <= |cells| == |c.contracts|
    requires forall k: nat | k < |cells| :: Get(cells[k], "cell_id") == Text(c.contracts[k].cellId)
    ensures LastCell(cells, n, Text(c.contracts[j].cellId)) == Some(cells[j])
    decreases n
  {
    if j < n - 1 {
      LastCellFound(c, cells, n - 1, j);
    }
  }

  /** Whatever code-written records a complete matrix is read from, its validator accepts it. */
  lemma {:induction false} CompleteMatrixIsValid(c: Config, environment: string, trials: Trials)
    requires Valid(c) && Coded(c, trials) && ReusableUpTo(c, environment, |c.contracts|, trials)
    ensures LiveAccessValid(c, CellsOf(c, environment, |c.contracts|, trials))
  {
    var results := RecordedResults(c, environment, |c.contracts|, trials);
    var cells := CellsOf(c, environment, |c.contracts|, trials);
    forall k: nat | k < |c.contracts| ensures CellHolds(c, k, cells[k]) {
      assert CodedRecord(c, Access(k), trials);
      GoodCell(c, k, results[k]);
    }
    CellsThatHold(c, cells);
  }

  // ---------------------------------------------------------------------------------------------
  // Access verdicts.

  /** The records decide the matrix: passed in full, or stuck. */
  ghost predicate AccessVerdict(c: Config, environment: string, trials: Trials, status: Status, cells: seq<Document>) {
    || (status == Pass && ReusableUpTo(c, environment, |c.contracts|, trials) && cells == CellsOf(c, environment, |c.contracts|, trials))
    || Stuck(c, environment, trials, status, cells)
  }

  lemma ReusedStep(c: Config, ctx: Context, n: nat, w: World, backend: Backend)
    requires Valid(c) && n < |c.contracts| && Reusable(c, ctx.environment, Access(n), w.trials).Some?
    ensures AccessStep(c, ctx, n, w, CellsOf(c, ctx.environment, n, w.trials), backend)
         == Going(w, CellsOf(c, ctx.environment, n + 1, w.trials))
  {
  }

  /** After the first `n` cells nothing but reuse has happened. */
  ghost predicate OnlyReused(c: Config, ctx: Context, n: nat, w: World, backend: Backend) {
    n <= |c.contracts| && AccessPrefix(c, ctx, n, w, backend) == Going(w, CellsOf(c, ctx.environment, n, w.trials))
  }

  lemma {:induction false} ReusedNext(c: Config, ctx: Context, n: nat, w: World, backend: Backend)
    requires Valid(c) && n < |c.contracts| && Reusable(c, ctx.environment, Access(n), w.trials).Some?
    requires OnlyReused(c, ctx, n, w, backend)
    ensures OnlyReused(c, ctx, n + 1, w, backend)
  {
    ReusedStep(c, ctx, n, w, backend);
  }

  lemma {:induction false} ReusedPrefix(c: Config, ctx: Context, n: nat, w: World, backend: Backend)
    requires Valid(c) && n <= |c.contracts| && ReusableUpTo(c, ctx.environment, n, w.trials)
    ensures AccessPrefix(c, ctx, n, w, backend) == Going(w, CellsOf(c, ctx.environment, n, w.trials))
  {
    forall k: nat | k < n && OnlyReused(c, ctx, k, w, backend)
      ensures OnlyReused(c, ctx, k + 1, w, backend)
    {
      ReusedNext(c, ctx, k, w, backend);
    }
    Induction(n, (k: nat) => OnlyReused(c, ctx, k, w, backend));
  }

  lemma StuckStep(c: Config, ctx: Context, k: nat, w: World, backend: Backend, status: Status, cells: seq<Document>)
    requires k < |c.contracts| && StuckAt(c, ctx.environment, k, w.trials, status, cells)
    ensures AccessStep(c, ctx, k, w, CellsOf(c, ctx.environment, k, w.trials), backend) == Ended(status, cells, w)
  {
  }

  lemma {:induction false} StuckCellRun(c: Config, ctx: Context, k: nat, w: World, backend: Backend, status: Status, cells: seq<Document>)
    requires Valid(c) && k < |c.contracts| && StuckAt(c, ctx.environment, k, w.trials, status, cells)
    ensures AccessPrefix(c, ctx, |c.contracts|, w, backend) == Ended(status, cells, w)
  {
    ReusedPrefix(c, ctx, k, w, backend);
    StuckStep(c, ctx, k, w, backend, status, cells);
    AccessStops(c, ctx, k + 1, Provision(c, ctx, w, backend), backend);
  }

  lemma {:induction false} StuckRun(c: Config, ctx: Context, w: World, backend: Backend, status: Status, cells: seq<Document>)
    requires Valid(c) && Stuck(c, ctx.environment, w.trials, status, cells)
    ensures AccessRun(c, ctx, w, backend) == Ended(status, cells, w)
  {
    if status == Blocked && cells == [] && Sticky(c, ctx.environment, Provisioning, w.trials).Some? {
      AccessStops(c, ctx, 0, Provision(c, ctx, w, backend), backend);
    } else {
      var k: nat :| k < |c.contracts| && StuckAt(c, ctx.environment, k, w.trials, status, cells);
      StuckCellRun(c, ctx, k, w, backend, status, cells);
    }
  }

  /** A decided matrix is read off the journal: same status, same cells, no call, nothing written. */
  lemma {:induction false} VerdictIsRead(c: Config, ctx: Context, w: World, backend: Backend, status: Status, cells: seq<Document>)
    requires Valid(c) && Coded(c, w.trials) && AccessVerdict(c, ctx.environment, w.trials, status, cells)
    ensures AccessRun(c, ctx, w, backend) == Ended(status, cells, w)
  {
    if Stuck(c, ctx.environment, w.trials, status, cells) {
      StuckRun(c, ctx, w, backend, status, cells);
    } else {
      ReusedPrefix(c, ctx, |c.contracts|, w, backend);
      CompleteMatrixIsValid(c, ctx.environment, w.trials);
    }
  }

  /** Every access run that ends, other than on infrastructure, leaves its verdict on record. */
  lemma {:induction false} AccessRunIsGood(c: Config, ctx: Context, w: World, backend: Backend)
    requires Valid(c) && Coded(c, w.trials)
    ensures
      var out := AccessRun(c, ctx, w, backend);
      && !out.Going? && AccessProgress(c, ctx, w, out.world)
      && (out.Ended? && out.status != InfraFailed ==> AccessVerdict(c, ctx.environment, out.world.trials, out.status, out.values))
      && (out.Raised? ==> out.world.calls != [] && backend(out.world.calls) == Escapes)
  {
    PrefixIsGood(c, ctx, |c.contracts|, w, backend);
    var before := AccessPrefix(c, ctx, |c.contracts|, w, backend);
    if before.Going? {
      CompleteMatrixIsValid(c, ctx.environment, before.world.trials);
    }
  }

  lemma {:induction false} StuckStays(c: Config, environment: string, w: World, after: World, status: Status, cells: seq<Document>)
    requires Valid(c) && Kept(c, environment, w, after) && Stuck(c, environment, w.trials, status, cells)
    ensures Stuck(c, environment, after.trials, status, cells)
  {
    if status == Blocked && cells == [] && Sticky(c, environment, Provisioning, w.trials).Some? {
      SameRecord(c, Provisioning, w.trials, after.trials);
    } else {
      var k: nat :| k < |c.contracts| && StuckAt(c, environment, k, w.trials, status, cells);
      ReusableStays(c, environment, k, w, after);
      SameRecord(c, Access(k), w.trials, after.trials);
      assert StuckAt(c, environment, k, after.trials, status, cells);
    }
  }

  lemma {:induction false} AccessVerdictStays(c: Config, environment: string, w: World, after: World, status: Status, cells: seq<Document>)
    requires Valid(c) && Kept(c, environment, w, after) && AccessVerdict(c, environment, w.trials, status, cells)
    ensures AccessVerdict(c, environment, after.trials, status, cells)
  {
    if Stuck(c, environment, w.trials, status, cells) {
      StuckStays(c, environment, w, after, status, cells);
    } else {
      ReusableStays(c, environment, |c.contracts|, w, after);
    }
  }

  // ---------------------------------------------------------------------------------------------
  // Recording the surfaces.

  function UnitStatus(item: Document): Status {
    if Clean(item) then Pass else MetricFail
  }

  lemma {:induction false} LastNamedIsNamed(items: seq<Value>, n: nat, surface: Value)
    requires n <= |items|
    ensures LastNamed(items, n, surface).Some? ==> Get(LastNamed(items, n, surface).value, "surface") == surface
    decreases n
  {
    if n > 0 {
      LastNamedIsNamed(items, n - 1, surface);
    }
  }

  lemma {:induction false} ItemNamesItsSurface(c: Config, items: seq<Value>, i: nat)
    requires i < |c.surfaces|
    ensures Get(SurfaceItem(c, items, i), "surface") == Text(c.surfaces[i])
  {
    LastNamedIsNamed(items, |items|, Text(c.surfaces[i]));
  }

  /** The first `n` surfaces are finished with the items of the list. */
  ghost predicate ItemsRecorded(c: Config, ctx: Context, items: seq<Value>, n: nat, after: Trials)
    requires n <= |c.surfaces|
  {
    forall i: nat | i < n ::
      Finished(c, ctx, Canary(i), after, UnitStatus(SurfaceItem(c, items, i)), SurfaceItem(c, items, i))
  }

  /** The journal after the first `n` surfaces have been recorded. */
  ghost predicate Recorded(c: Config, ctx: Context, items: seq<Value>, n: nat, before: Trials, after: Trials)
    requires n <= |c.surfaces|
  {
    && ItemsRecorded(c, ctx, items, n, after)
    && (forall u: Unit | !u.Canary? || u.surface >= n :: SameTrial(before, after, c.trial(u)))
  }

  /** A surface left running was begun in this environment. */
  ghost predicate OwnRunning(c: Config, environment: string, trials: Trials) {
    forall i: nat | i < |c.surfaces| && IsRunning(trials, c.trial(Canary(i))) ::
      trials[c.trial(Canary(i))].current.cacheKey == UnitKey(c, environment, Canary(i))
  }

  lemma {:induction false} RecordOne(c: Config, ctx: Context, items: seq<Value>, n: nat, before: Trials, now: Trials, after: Trials)
    requires Valid(c) && n < |c.surfaces| && Recorded(c, ctx, items, n, before, now) && OwnRunning(c, ctx.environment, before)
    requires after == FinishUnit(c, ctx, Canary(n), now, UnitStatus(SurfaceItem(c, items, n)), SurfaceItem(c, items, n))
    ensures Recorded(c, ctx, items, n + 1, before, after)
  {
    var item := SurfaceItem(c, items, n);
    assert SameTrial(before, now, c.trial(Canary(n)));
    FinishShape(c, ctx, Canary(n), now, UnitStatus(item), item);
    forall u: Unit | u != Canary(n)
      ensures SameTrial(now, after, c.trial(u))
    {
      assert c.trial(u) != c.trial(Canary(n));
    }
  }

  ghost predicate RecordedUpTo(c: Config, ctx: Context, items: seq<Value>, n: nat, before: Trials) {
    n <= |c.surfaces| && Recorded(c, ctx, items, n, before, RecordSurfaces(c, ctx, items, n, before))
  }

  lemma {:induction false} RecordNext(c: Config, ctx: Context, items: seq<Value>, n: nat, before: Trials)
    requires Valid(c) && n < |c.surfaces| && OwnRunning(c, ctx.environment, before) && RecordedUpTo(c, ctx, items, n, before)
    ensures RecordedUpTo(c, ctx, items, n + 1, before)
  {
    RecordOne(c, ctx, items, n, before, RecordSurfaces(c, ctx, items, n, before), RecordSurfaces(c, ctx, items, n + 1, before));
  }

  lemma {:induction false} RecordingShape(c: Config, ctx: Context, items: seq<Value>, n: nat, before: Trials)
    requires Valid(c) && n <= |c.surfaces| && OwnRunning(c, ctx.environment, before)
    ensures Recorded(c, ctx, items, n, before, RecordSurfaces(c, ctx, items, n, before))
  {
    forall k: nat | k < n && RecordedUpTo(c, ctx, items, k, before)
      ensures RecordedUpTo(c, ctx, items, k + 1, before)
    {
      RecordNext(c, ctx, items, k, before);
    }
    Induction(n, (k: nat) => RecordedUpTo(c, ctx, items, k, before));
  }

  /** After recording, each surface is settled exactly in the present environment, as its item says. */
  lemma {:induction false} RecordedSettles(c: Config, ctx: Context, items: seq<Value>, n: nat, after: Trials, i: nat, environment: string)
    requires Valid(c) && n <= |c.surfaces| && ItemsRecorded(c, ctx, items, n, after) && i < n
    ensures
      var item := SurfaceItem(c, items, i);
      && Reusable(c, environment, Canary(i), after) == (if environment == ctx.environment && Clean(item) then Some(item) else None)
      && Sticky(c, environment, Canary(i), after) == (if environment == ctx.environment && !Clean(item) then Some(item) else None)
      && c.trial(Canary(i)) in after && StatusOf(c, Canary(i), after) == UnitStatus(item)
  {
    var item := SurfaceItem(c, items, i);
    FinishedSettles(c, ctx, Canary(i), after, UnitStatus(item), item, environment);
  }

  /** Recording all surfaces makes the journal coded, whatever the surfaces held before. */
  lemma {:induction false} RecordingMakesCoded(c: Config, ctx: Context, items: seq<Value>, before: Trials, after: Trials)
    requires Valid(c) && (forall u: Unit | IsUnit(c, u) && !u.Canary? :: CodedRecord(c, u, before))
    requires Recorded(c, ctx, items, |c.surfaces|, before, after)
    ensures Coded(c, after)
  {
    forall u: Unit | IsUnit(c, u)
      ensures CodedRecord(c, u, after)
    {
      if u.Canary? {
        ItemNamesItsSurface(c, items, u.surface);
        forall environment: string
          ensures Reusable(c, environment, u, after).Some? ==> GoodResult(c, u, Reusable(c, environment, u, after).value)
        {
          RecordedSettles(c, ctx, items, |c.surfaces|, after, u.surface, environment);
        }
      } else {
        assert CodedRecord(c, u, before);
        SameRecord(c, u, before, after);
      }
    }
    forall environment: string, i: nat | i < |c.surfaces|
      ensures Settled(c, environment, Canary(i), after) <==> environment == ctx.environment
      ensures !IsRunning(after, c.trial(Canary(i)))
    {
      RecordedSettles(c, ctx, items, |c.surfaces|, after, i, environment);
    }
  }

  lemma {:induction false} RecordingKeeps(c: Config, ctx: Context, items: seq<Value>, w: World, after: World)
    requires Valid(c) && Recorded(c, ctx, items, |c.surfaces|, w.trials, after.trials) && after.calls == w.calls
    requires forall i: nat | i < |c.surfaces| :: !Settled(c, ctx.environment, Canary(i), w.trials)
    ensures Kept(c, ctx.environment, w, after)
  {
    assert after.calls[|w.calls|..] == [];
  }

  // ---------------------------------------------------------------------------------------------
  // Scanning the surfaces.

  ghost predicate SurfacesReusable(c: Config, environment: string, n: nat, trials: Trials)
    requires n <= |c.surfaces|
  {
    forall i: nat | i < n :: Reusable(c, environment, Canary(i), trials).Some?
  }

  /** What the reuse loop has found after `n` surfaces. */
  ghost predicate Scanned(c: Config, environment: string, n: nat, trials: Trials, scan: Scan)
    requires n <= |c.surfaces|
  {
    match scan
    case Complete(values) =>
      && SurfacesReusable(c, environment, n, trials) && |values| == n
      && forall i: nat | i < n :: values[i] == Reusable(c, environment, Canary(i), trials).value
    case Incomplete => exists i: nat :: i < n && !Settled(c, environment, Canary(i), trials)
    case Stopped(status, values) =>
      && |values| < n && Sticky(c, environment, Canary(|values|), trials).Some?
      && status == StatusOf(c, Canary(|values|), trials)
      && SurfacesReusable(c, environment, |values|, trials)
      && forall i: nat | i < |values| :: values[i] == Reusable(c, environment, Canary(i), trials).value
  }

  lemma {:induction false} ScanMeans(c: Config, environment: string, n: nat, trials: Trials)
    requires n <= |c.surfaces|
    ensures Scanned(c, environment, n, trials, ScanSurfaces(c, environment, n, trials))
    decreases n
  {
    if n > 0 {
      ScanMeans(c, environment, n - 1, trials);
    }
  }

  lemma {:induction false} ScanIgnoresTheRest(c: Config, environment: string, n: nat, before: Trials, after: Trials)
    requires n <= |c.surfaces| && forall i: nat | i < |c.surfaces| :: SameTrial(before, after, c.trial(Canary(i)))
    ensures ScanSurfaces(c, environment, n, after) == ScanSurfaces(c, environment, n, before)
    decreases n
  {
    if n > 0 {
      ScanIgnoresTheRest(c, environment, n - 1, before, after);
      SameRecord(c, Canary(n - 1), before, after);
    }
  }

  /** The scan right after recording: complete if every item was clean, else stopped at the first that was not. */
  ghost predicate ScansAsRecorded(c: Config, environment: string, items: seq<Value>, trials: Trials, n: nat) {
    && n <= |c.surfaces|
    && var scan := ScanSurfaces(c, environment, n, trials);
       if AllClean(c, items, n) then scan == Complete(Ordered(c, items, n)) else scan.Stopped? && scan.status == MetricFail
  }

  lemma {:induction false} ScansNext(c: Config, ctx: Context, items: seq<Value>, m: nat, after: Trials, n: nat)
    requires Valid(c) && n < m <= |c.surfaces| && ItemsRecorded(c, ctx, items, m, after)
    requires ScansAsRecorded(c, ctx.environment, items, after, n)
    ensures ScansAsRecorded(c, ctx.environment, items, after, n + 1)
  {
    RecordedSettles(c, ctx, items, m, after, n, ctx.environment);
  }

  lemma {:induction false} ScanAfterRecording(c: Config, ctx: Context, items: seq<Value>, m: nat, after: Trials)
    requires Valid(c) && m <= |c.surfaces| && ItemsRecorded(c, ctx, items, m, after)
    ensures ScansAsRecorded(c, ctx.environment, items, after, m)
  {
    forall k: nat | k < m && ScansAsRecorded(c, ctx.environment, items, after, k)
      ensures ScansAsRecorded(c, ctx.environment, items, after, k + 1)
    {
      ScansNext(c, ctx, items, m, after, k);
    }
    Induction(m, (k: nat) => ScansAsRecorded(c, ctx.environment, items, after, k));
  }

  lemma {:induction false} OrderedIsIndexed(c: Config, items: seq<Value>, n: nat)
    requires n <= |c.surfaces|
    ensures |Ordered(c, items, n)| == n
    ensures forall i: nat | i < n :: Ordered(c, items, n)[i] == SurfaceItem(c, items, i)
    ensures AllClean(c, items, n) <==> forall i: nat | i < n :: Clean(SurfaceItem(c, items, i))
    decreases n
  {
    if n > 0 {
      OrderedIsIndexed(c, items, n - 1);
    }
  }

  /** The recorded document is valid exactly when all its items are clean, however the backend listed them. */
  lemma {:induction false} OrderedIsValidIff(c: Config, items: seq<Value>)
    ensures CanaryValid(c, Ordered(c, items, |c.surfaces|)) <==> AllClean(c, items, |c.surfaces|)
  {
    OrderedIsIndexed(c, items, |c.surfaces|);
    forall i: nat | i < |c.surfaces|
      ensures Get(SurfaceItem(c, items, i), "surface") == Text(c.surfaces[i])
    {
      ItemNamesItsSurface(c, items, i);
    }
    if CanaryValid(c, Ordered(c, items, |c.surfaces|)) {
      forall i: nat | i < |c.surfaces|
        ensures Clean(SurfaceItem(c, items, i))
      {
        assert Clean(Ordered(c, items, |c.surfaces|)[i]);
      }
    }
  }

  // ---------------------------------------------------------------------------------------------
  // Canary verdicts.

  /** The records decide the canary matrix. */
  ghost predicate CanaryVerdict(c: Config, environment: string, trials: Trials, status: Status, values: seq<Document>) {
    || (status == Blocked && values == [] && Sticky(c, environment, Provisioning, trials).Some?)
    || (Reusable(c, environment, Provisioning, trials).Some?
        && match ScanSurfaces(c, environment, |c.surfaces|, trials)
           case Complete(found) => status == Pass && values == found
           case Stopped(verdict, found) => status == verdict && values == found
           case Incomplete =>
             Sticky(c, environment, CanaryCollection, trials).Some? && status == StatusOf(c, CanaryCollection, trials) && values == [])
  }

  /** A complete scan of code-written records is a valid document. */
  lemma {:induction false} CompleteScanIsValid(c: Config, environment: string, trials: Trials)
    requires Coded(c, trials) && ScanSurfaces(c, environment, |c.surfaces|, trials).Complete?
    ensures CanaryValid(c, ScanSurfaces(c, environment, |c.surfaces|, trials).values)
  {
    ScanMeans(c, environment, |c.surfaces|, trials);
    forall i: nat | i < |c.surfaces|
      ensures GoodResult(c, Canary(i), Reusable(c, environment, Canary(i), trials).value)
    {
      assert CodedRecord(c, Canary(i), trials);
    }
  }

  lemma {:induction false} CanaryVerdictIsRead(c: Config, ctx: Context, w: World, backend: Backend, status: Status, values: seq<Document>)
    requires Valid(c) && c.surfaces != [] && Coded(c, w.trials) && CanaryVerdict(c, ctx.environment, w.trials, status, values)
    ensures CanaryRun(c, ctx, w, backend) == Ended(status, values, w)
  {
    if Reusable(c, ctx.environment, Provisioning, w.trials).Some? {
      ScanMeans(c, ctx.environment, |c.surfaces|, w.trials);
      if ScanSurfaces(c, ctx.environment, |c.surfaces|, w.trials).Complete? {
        CompleteScanIsValid(c, ctx.environment, w.trials);
      }
    }
  }

  /** What collecting leaves: a verdict on record, of the collection itself or of the surfaces. */
  ghost predicate CollectOutcome(c: Config, ctx: Context, w: World, backend: Backend, out: Outcome) {
    && GoodStep(c, ctx, w, out.world)
    && SameTrial(w.trials, out.world.trials, c.trial(Provisioning))
    && !out.Going?
    && (out.Raised? ==> out.world.calls != [] && backend(out.world.calls) == Escapes)
    && (out.Ended? && out.status != InfraFailed ==>
          || (out.values == [] && ScanSurfaces(c, ctx.environment, |c.surfaces|, out.world.trials) == Incomplete
              && Sticky(c, ctx.environment, CanaryCollection, out.world.trials).Some?
              && out.status == StatusOf(c, CanaryCollection, out.world.trials))
          || SurfacesDecide(c, ctx.environment, out.world.trials, out.status, out.values))
  }

  /**
   * The surfaces were recorded. The verdict of the run that recorded them and that of a later scan
   * differ exactly when every item was clean and the run still failed, on the shape of the list.
   */
  ghost predicate SurfacesDecide(c: Config, environment: string, trials: Trials, status: Status, values: seq<Document>) {
    var scan := ScanSurfaces(c, environment, |c.surfaces|, trials);
    if CanaryValid(c, values) then scan == Complete(values) && (status == Pass || status == MetricFail)
    else scan.Stopped? && scan.status == MetricFail && status == MetricFail
  }

  lemma {:induction false} RecordingDecides(c: Config, ctx: Context, items: seq<Value>, w: World)
    requires Valid(c) && Coded(c, w.trials)
    requires forall i: nat | i < |c.surfaces| :: !Settled(c, ctx.environment, Canary(i), w.trials)
    ensures
      var after := w.(trials := RecordSurfaces(c, ctx, items, |c.surfaces|, w.trials));
      var ordered := Ordered(c, items, |c.surfaces|);
      && GoodStep(c, ctx, w, after)
      && SameTrial(w.trials, after.trials, c.trial(Provisioning))
      && (AllClean(c, items, |c.surfaces|) <==> CanaryValid(c, ordered))
      && SurfacesDecide(c, ctx.environment, after.trials, MetricFail, ordered)
  {
    var after := w.(trials := RecordSurfaces(c, ctx, items, |c.surfaces|, w.trials));
    RecordingShape(c, ctx, items, |c.surfaces|, w.trials);
    RecordingMakesCoded(c, ctx, items, w.trials, after.trials);
    RecordingKeeps(c, ctx, items, w, after);
    ScanAfterRecording(c, ctx, items, |c.surfaces|, after.trials);
    OrderedIsValidIff(c, items);
  }

  lemma {:induction false} SurfacesStillOpen(c: Config, environment: string, before: Trials, after: Trials)
    requires Valid(c) && OnlyTrial(c, CanaryCollection, before, after)
    ensures forall i: nat | i < |c.surfaces| :: SameTrial(before, after, c.trial(Canary(i)))
    ensures SameTrial(before, after, c.trial(Provisioning))
    ensures forall i: nat | i < |c.surfaces| :: Settled(c, environment, Canary(i), after) == Settled(c, environment, Canary(i), before)
    ensures ScanSurfaces(c, environment, |c.surfaces|, after) == ScanSurfaces(c, environment, |c.surfaces|, before)
  {
    assert c.trial(Provisioning) != c.trial(CanaryCollection);
    forall i: nat | i < |c.surfaces|
      ensures SameTrial(before, after, c.trial(Canary(i)))
    {
      assert c.trial(Canary(i)) != c.trial(CanaryCollection);
    }
    forall i: nat | i < |c.surfaces|
      ensures Settled(c, environment, Canary(i), after) == Settled(c, environment, Canary(i), before)
    {
      SameRecord(c, Canary(i), before, after);
    }
    ScanIgnoresTheRest(c, environment, |c.surfaces|, before, after);
  }

  lemma {:induction false} GoodTwice(c: Config, ctx: Context, a: World, b: World, d: World)
    requires GoodStep(c, ctx, a, b) && GoodStep(c, ctx, b, d)
    ensures GoodStep(c, ctx, a, d)
  {
    KeptTwice(c, ctx.environment, a, b, d);
  }

  /** Collecting is only entered with no surface settled, as surfaces are settled together. */
  lemma {:induction false} CollectIsGood(c: Config, ctx: Context, w: World, backend: Backend)
    requires Valid(c) && Coded(c, w.trials) && ScanSurfaces(c, ctx.environment, |c.surfaces|, w.trials) == Incomplete
    ensures CollectOutcome(c, ctx, w, backend, Collect(c, ctx, w, backend))
  {
    if !Sticky(c, ctx.environment, CanaryCollection, w.trials).Some? {
      match backend(Asked(c, ctx, CanaryCollection, w).calls)
      case Escapes => CollectionAsked(c, ctx, w);
      case Infrastructure(reason) => CollectionClosed(c, ctx, w, InfraFailed, Reason(reason));
      case Refused(reason) => CollectionClosed(c, ctx, w, Blocked, Reason(reason));
      case Answered(result) =>
        if Get(result, "surfaces").Listing? {
          ScanMeans(c, ctx.environment, |c.surfaces|, w.trials);
          CollectionListed(c, ctx, w, result);
        } else {
          CollectionClosed(c, ctx, w, Blocked, result);
        }
    }
  }

  lemma {:induction false} CollectionAsked(c: Config, ctx: Context, w: World)
    requires Valid(c) && Coded(c, w.trials) && !Sticky(c, ctx.environment, CanaryCollection, w.trials).Some?
    ensures
      var after := Asked(c, ctx, CanaryCollection, w);
      GoodStep(c, ctx, w, after) && SameTrial(w.trials, after.trials, c.trial(Provisioning))
  {
    GoodAsk(c, ctx, CanaryCollection, w);
    SurfacesStillOpen(c, ctx.environment, w.trials, Asked(c, ctx, CanaryCollection, w).trials);
  }

  lemma {:induction false} CollectionClosed(c: Config, ctx: Context, w: World, status: Status, result: Document)
    requires Valid(c) && Coded(c, w.trials) && !Sticky(c, ctx.environment, CanaryCollection, w.trials).Some?
    requires status.Terminal()
    ensures
      var after := Closed(c, ctx, CanaryCollection, Asked(c, ctx, CanaryCollection, w), status, result);
      && GoodStep(c, ctx, w, after) && SameTrial(w.trials, after.trials, c.trial(Provisioning))
      && ScanSurfaces(c, ctx.environment, |c.surfaces|, after.trials) == ScanSurfaces(c, ctx.environment, |c.surfaces|, w.trials)
      && (forall i: nat | i < |c.surfaces| ::
            Settled(c, ctx.environment, Canary(i), after.trials) == Settled(c, ctx.environment, Canary(i), w.trials))
      && (status == Blocked ==> Sticky(c, ctx.environment, CanaryCollection, after.trials).Some?)
      && c.trial(CanaryCollection) in after.trials && StatusOf(c, CanaryCollection, after.trials) == status
  {
    var after := Closed(c, ctx, CanaryCollection, Asked(c, ctx, CanaryCollection, w), status, result);
    GoodClose(c, ctx, CanaryCollection, w, status, result);
    SurfacesStillOpen(c, ctx.environment, w.trials, after.trials);
  }

  lemma {:induction false} CollectionListed(c: Config, ctx: Context, w: World, result: Document)
    requires Valid(c) && Coded(c, w.trials) && !Sticky(c, ctx.environment, CanaryCollection, w.trials).Some?
    requires Get(result, "surfaces").Listing?
    requires exists i: nat :: i < |c.surfaces| && !Settled(c, ctx.environment, Canary(i), w.trials)
    ensures
      var items := Get(result, "surfaces").items;
      var collected := Closed(c, ctx, CanaryCollection, Asked(c, ctx, CanaryCollection, w), Pass, result);
      var after := collected.(trials := RecordSurfaces(c, ctx, items, |c.surfaces|, collected.trials));
      var ordered := Ordered(c, items, |c.surfaces|);
      && GoodStep(c, ctx, w, after)
      && SameTrial(w.trials, after.trials, c.trial(Provisioning))
      && (AllClean(c, items, |c.surfaces|) <==> CanaryValid(c, ordered))
      && SurfacesDecide(c, ctx.environment, after.trials, MetricFail, ordered)
  {
    var items := Get(result, "surfaces").items;
    var collected := Closed(c, ctx, CanaryCollection, Asked(c, ctx, CanaryCollection, w), Pass, result);
    CollectionClosed(c, ctx, w, Pass, result);
    var open: nat :| open < |c.surfaces| && !Settled(c, ctx.environment, Canary(open), w.trials);
    RecordingDecides(c, ctx, items, collected);
    GoodTwice(c, ctx, w, collected, collected.(trials := RecordSurfaces(c, ctx, items, |c.surfaces|, collected.trials)));
  }

  // ---------------------------------------------------------------------------------------------
  // Any number of runs.

  /** A run of either matrix. */
  datatype Launch = Launch(canary: bool, ctx: Context, backend: Backend)

  ghost function Outcomes(c: Config, l: Launch, w: World): Outcome {
    if l.canary then CanaryRun(c, l.ctx, w, l.backend) else AccessRun(c, l.ctx, w, l.backend)
  }

  function Fold(launches: seq<Launch>, n: nat, w: World, next: (Launch, World) -> World): World
    requires n <= |launches|
  {
    if n == 0 then w else next(launches[n - 1], Fold(launches, n - 1, w, next))
  }

  ghost function Next(c: Config): (Launch, World) -> World {
    (l: Launch, w: World) => Outcomes(c, l, w).world
  }

  /** The journal and the calls after a history of runs on an empty journal, or on any earlier world. */
  ghost function AfterLaunches(c: Config, launches: seq<Launch>, n: nat, w: World): World
    requires n <= |launches|
  {
    Fold(launches, n, w, Next(c))
  }

  /** What every launch does on a code-written journal. */
  ghost predicate LaunchOutcome(c: Config, ctx: Context, w: World, backend: Backend, out: Outcome) {
    && !out.Going? && GoodStep(c, ctx, w, out.world)
    && (out.Raised? ==> out.world.calls != [] && backend(out.world.calls) == Escapes)
  }

  lemma {:induction false} CanaryRunIsGood(c: Config, ctx: Context, w: World, backend: Backend)
    requires Valid(c) && c.surfaces != [] && Coded(c, w.trials)
    ensures
      var out := CanaryRun(c, ctx, w, backend);
      && LaunchOutcome(c, ctx, w, backend, out)
      && (out.Ended? && out.status != InfraFailed ==>
            || CanaryVerdict(c, ctx.environment, out.world.trials, out.status, out.values)
            || (Reusable(c, ctx.environment, Provisioning, out.world.trials).Some?
                && SurfacesDecide(c, ctx.environment, out.world.trials, out.status, out.values)))
  {
    ProvisionIsGood(c, ctx, w, backend);
    var provisioned := Provision(c, ctx, w, backend);
    if provisioned.Going? {
      var now := provisioned.world;
      var scan := ScanSurfaces(c, ctx.environment, |c.surfaces|, now.trials);
      ScanMeans(c, ctx.environment, |c.surfaces|, now.trials);
      match scan
      case Complete(values) => CompleteScanIsValid(c, ctx.environment, now.trials);
      case Stopped(_, _) =>
      case Incomplete =>
        CollectIsGood(c, ctx, now, backend);
        GoodTwice(c, ctx, w, now, Collect(c, ctx, now, backend).world);
        SameRecord(c, Provisioning, now.trials, Collect(c, ctx, now, backend).world.trials);
    }
  }

  lemma {:induction false} LaunchIsGood(c: Config, l: Launch, w: World)
    requires Valid(c) && c.surfaces != [] && Coded(c, w.trials)
    ensures LaunchOutcome(c, l.ctx, w, l.backend, Outcomes(c, l, w))
  {
    if l.canary {
      CanaryRunIsGood(c, l.ctx, w, l.backend);
    } else {
      AccessRunIsGood(c, l.ctx, w, l.backend);
    }
  }

  lemma EmptyIsCoded(c: Config)
    requires Valid(c)
    ensures Coded(c, map[])
  {
  }

  /** Induction over a history of runs. */
  lemma {:induction false} FoldInvariant(launches: seq<Launch>, n: nat, w: World, next: (Launch, World) -> World, inv: World -> bool)
    requires n <= |launches| && inv(w)
    requires forall i, v: World {:trigger next(launches[i], v)} | 0 <= i < |launches| && inv(v) :: inv(next(launches[i], v))
    ensures inv(Fold(launches, n, w, next))
    decreases n
  {
    if n > 0 {
      FoldInvariant(launches, n - 1, w, next, inv);
    }
  }

  lemma {:induction false} LaunchesKeepCoded(c: Config, launches: seq<Launch>, n: nat, w: World)
    requires Valid(c) && c.surfaces != [] && Coded(c, w.trials) && n <= |launches|
    ensures Coded(c, AfterLaunches(c, launches, n, w).trials)
  {
    forall i, v: World | 0 <= i < |launches| && Coded(c, v.trials)
      ensures Coded(c, Outcomes(c, launches[i], v).world.trials)
    {
      LaunchIsGood(c, launches[i], v);
    }
    FoldInvariant(launches, n, w, Next(c), (v: World) => Coded(c, v.trials));
  }

  /**
   * On a journal the collectors wrote themselves, in any environments and with any backends, neither
   * validator ever rejects a complete matrix: a run raises only what the backend lets escape.
   */
  lemma {:induction false} OnlyTheBackendRaises(c: Config, launches: seq<Launch>, last: Launch)
    requires Valid(c) && c.surfaces != []
    ensures
      var w := AfterLaunches(c, launches, |launches|, World(map[], []));
      var out := Outcomes(c, last, w);
      && !out.Going?
      && (out.Raised? ==> out.world.calls != [] && last.backend(out.world.calls) == Escapes)
      && (out.Ended? && out.status == Pass ==>
            if last.canary then CanaryValid(c, out.values) else LiveAccessValid(c, out.values))
  {
    EmptyIsCoded(c);
    LaunchesKeepCoded(c, launches, |launches|, World(map[], []));
    var w := AfterLaunches(c, launches, |launches|, World(map[], []));
    LaunchIsGood(c, last, w);
    if last.canary {
      CanaryPassIsValid(c, last.ctx, w, last.backend);
    } else {
      AccessPassIsValid(c, last.ctx, w, last.backend);
    }
  }

  lemma {:induction false} AccessPassIsValid(c: Config, ctx: Context, w: World, backend: Backend)
    requires Valid(c) && Coded(c, w.trials)
    ensures
      var out := AccessRun(c, ctx, w, backend);
      out.Ended? && out.status == Pass ==> LiveAccessValid(c, out.values)
  {
    AccessRunIsGood(c, ctx, w, backend);
    var out := AccessRun(c, ctx, w, backend);
    if out.Ended? && out.status == Pass {
      assert !Stuck(c, ctx.environment, out.world.trials, Pass, out.values);
      CompleteMatrixIsValid(c, ctx.environment, out.world.trials);
    }
  }

  lemma {:induction false} CanaryPassIsValid(c: Config, ctx: Context, w: World, backend: Backend)
    requires Valid(c) && c.surfaces != [] && Coded(c, w.trials)
    ensures
      var out := CanaryRun(c, ctx, w, backend);
      out.Ended? && out.status == Pass ==> CanaryValid(c, out.values)
  {
    CanaryRunIsGood(c, ctx, w, backend);
    var out := CanaryRun(c, ctx, w, backend);
    if out.Ended? && out.status == Pass {
      ScanMeans(c, ctx.environment, |c.surfaces|, out.world.trials);
      if ScanSurfaces(c, ctx.environment, |c.surfaces|, out.world.trials).Complete? {
        CompleteScanIsValid(c, ctx.environment, out.world.trials);
      }
    }
  }

  ghost predicate Under(launches: seq<Launch>, environment: string) {
    forall i | 0 <= i < |launches| :: launches[i].ctx.environment == environment
  }

  /**
   * Under one environment fingerprint, whatever the producers and backends of later runs, a settled
   * unit keeps its record and is not asked for again.
   */
  lemma {:induction false} SettledUnitsAreNeverExecuted(c: Config, environment: string, launches: seq<Launch>, n: nat, w: World)
    requires Valid(c) && c.surfaces != [] && Coded(c, w.trials) && Under(launches, environment) && n <= |launches|
    ensures Kept(c, environment, w, AfterLaunches(c, launches, n, w))
  {
    forall i, v: World | 0 <= i < |launches| && Coded(c, v.trials) && Kept(c, environment, w, v)
      ensures Coded(c, Outcomes(c, launches[i], v).world.trials) && Kept(c, environment, w, Outcomes(c, launches[i], v).world)
    {
      LaunchKeeps(c, environment, launches[i], w, v);
    }
    NothingYet(c, environment, w);
    FoldInvariant(launches, n, w, Next(c), (v: World) => Coded(c, v.trials) && Kept(c, environment, w, v));
  }

  lemma {:induction false} LaunchKeeps(c: Config, environment: string, l: Launch, w: World, v: World)
    requires Valid(c) && c.surfaces != [] && l.ctx.environment == environment
    requires Coded(c, v.trials) && Kept(c, environment, w, v)
    ensures Coded(c, Outcomes(c, l, v).world.trials) && Kept(c, environment, w, Outcomes(c, l, v).world)
  {
    LaunchIsGood(c, l, v);
    KeptTwice(c, environment, w, v, Outcomes(c, l, v).world);
  }

  lemma {:induction false} NothingYet(c: Config, environment: string, w: World)
    ensures Kept(c, environment, w, w)
  {
    assert w.calls[|w.calls|..] == [];
  }

  /**
   * An access matrix that passed, failed on a metric or was blocked is final: after any further runs
   * of either matrix under its environment, an access run by any producer repeats its status and
   * cells without a backend call and without touching the journal.
   */
  lemma {:induction false} AccessVerdictIsFinal(c: Config, ctx: Context, w: World, backend: Backend, launches: seq<Launch>, later: Context, other: Backend)
    requires Valid(c) && c.surfaces != [] && Coded(c, w.trials)
    requires AccessRun(c, ctx, w, backend).Ended? && AccessRun(c, ctx, w, backend).status != InfraFailed
    requires Under(launches, ctx.environment) && later.environment == ctx.environment
    ensures
      var first := AccessRun(c, ctx, w, backend);
      var now := AfterLaunches(c, launches, |launches|, first.world);
      AccessRun(c, later, now, other) == Ended(first.status, first.values, now)
  {
    var first := AccessRun(c, ctx, w, backend);
    AccessRunIsGood(c, ctx, w, backend);
    LaunchesKeepCoded(c, launches, |launches|, first.world);
    SettledUnitsAreNeverExecuted(c, ctx.environment, launches, |launches|, first.world);
    var now := AfterLaunches(c, launches, |launches|, first.world);
    AccessVerdictStays(c, ctx.environment, first.world, now, first.status, first.values);
    VerdictIsRead(c, later, now, other, first.status, first.values);
  }

  // ---------------------------------------------------------------------------------------------
  // The canary matrix repeats itself, but for one kind of failure.

  /** The canary records and the collection are as a decided canary matrix left them. */
  ghost predicate CanarySettled(c: Config, environment: string, trials: Trials, status: Status, values: seq<Document>) {
    Coded(c, trials) && CanaryVerdict(c, environment, trials, status, values)
  }

  lemma {:induction false} VerdictSurvivesLaunch(c: Config, environment: string, l: Launch, w: World, status: Status, values: seq<Document>)
    requires Valid(c) && c.surfaces != [] && l.ctx.environment == environment
    requires CanarySettled(c, environment, w.trials, status, values)
    ensures CanarySettled(c, environment, Outcomes(c, l, w).world.trials, status, values)
  {
    if l.canary {
      CanaryVerdictIsRead(c, l.ctx, w, l.backend, status, values);
    } else {
      AccessRunIsGood(c, l.ctx, w, l.backend);
      VerdictSurvivesAccess(c, environment, w, Outcomes(c, l, w).world, status, values);
    }
  }

  lemma {:induction false} VerdictSurvivesAccess(c: Config, environment: string, w: World, after: World, status: Status, values: seq<Document>)
    requires Valid(c) && Coded(c, after.trials) && CanaryVerdict(c, environment, w.trials, status, values)
    requires Kept(c, environment, w, after) && SurfacesAlone(c, w.trials, after.trials)
    ensures CanarySettled(c, environment, after.trials, status, values)
  {
    assert Settled(c, environment, Provisioning, w.trials);
    SameRecord(c, Provisioning, w.trials, after.trials);
    SameRecord(c, CanaryCollection, w.trials, after.trials);
    ScanIgnoresTheRest(c, environment, |c.surfaces|, w.trials, after.trials);
  }

  lemma {:induction false} CanaryVerdictStays(c: Config, environment: string, launches: seq<Launch>, w: World, status: Status, values: seq<Document>)
    requires Valid(c) && c.surfaces != [] && Under(launches, environment)
    requires CanarySettled(c, environment, w.trials, status, values)
    ensures CanarySettled(c, environment, AfterLaunches(c, launches, |launches|, w).trials, status, values)
  {
    forall i, v: World | 0 <= i < |launches| && CanarySettled(c, environment, v.trials, status, values)
      ensures CanarySettled(c, environment, Outcomes(c, launches[i], v).world.trials, status, values)
    {
      VerdictSurvivesLaunch(c, environment, launches[i], v, status, values);
    }
    FoldInvariant(launches, |launches|, w, Next(c), (v: World) => CanarySettled(c, environment, v.trials, status, values));
  }

  /** The verdict a later run reads off the journal: a pass if the first document was valid after all. */
  lemma {:induction false} LaterVerdict(c: Config, ctx: Context, w: World, backend: Backend) returns (values: seq<Document>)
    requires Valid(c) && c.surfaces != [] && Coded(c, w.trials)
    requires CanaryRun(c, ctx, w, backend).Ended? && CanaryRun(c, ctx, w, backend).status != InfraFailed
    ensures
      var first := CanaryRun(c, ctx, w, backend);
      var status := if CanaryValid(c, first.values) then Pass else first.status;
      && CanarySettled(c, ctx.environment, first.world.trials, status, values)
      && (status == Pass || first.status == Blocked ==> values == first.values)
  {
    CanaryRunIsGood(c, ctx, w, backend);
    CanaryPassIsValid(c, ctx, w, backend);
    var first := CanaryRun(c, ctx, w, backend);
    var trials := first.world.trials;
    if CanaryVerdict(c, ctx.environment, trials, first.status, first.values) {
      values := first.values;
      ScanMeans(c, ctx.environment, |c.surfaces|, trials);
    } else {
      values := ScanSurfaces(c, ctx.environment, |c.surfaces|, trials).values;
    }
  }

  /**
   * After a canary matrix that was not an infrastructure failure, every canary run under its
   * environment answers without a backend call and leaves the journal alone. It repeats the first
   * status exactly unless the first run failed while its document satisfied the validator: then only
   * the shape of the backend's list was at fault, no surface recorded it, and the later run passes.
   */
  lemma {:induction false} CanaryVerdictRepeatsIff(c: Config, ctx: Context, w: World, backend: Backend, launches: seq<Launch>, later: Context, other: Backend)
    requires Valid(c) && c.surfaces != [] && Coded(c, w.trials)
    requires CanaryRun(c, ctx, w, backend).Ended? && CanaryRun(c, ctx, w, backend).status != InfraFailed
    requires Under(launches, ctx.environment) && later.environment == ctx.environment
    ensures
      var first := CanaryRun(c, ctx, w, backend);
      var now := AfterLaunches(c, launches, |launches|, first.world);
      var second := CanaryRun(c, later, now, other);
      && second.Ended? && second.world == now
      && (second.status == first.status <==> !(first.status == MetricFail && CanaryValid(c, first.values)))
      && (second.status != first.status ==> second.status == Pass && second.values == first.values)
  {
    var first := CanaryRun(c, ctx, w, backend);
    var values := LaterVerdict(c, ctx, w, backend);
    CanaryPassIsValid(c, ctx, w, backend);
    var status := if CanaryValid(c, first.values) then Pass else first.status;
    CanaryVerdictStays(c, ctx.environment, launches, first.world, status, values);
    var now := AfterLaunches(c, launches, |launches|, first.world);
    CanaryVerdictIsRead(c, later, now, other, status, values);
    if CanaryValid(c, first.values) {
      BlockedIsNotValid(c, ctx, w, backend);
    }
  }

  lemma {:induction false} ValidVerdictPasses(c: Config, environment: string, trials: Trials, status: Status, values: seq<Document>)
    requires c.surfaces != [] && CanaryVerdict(c, environment, trials, status, values) && CanaryValid(c, values)
    ensures status == Pass
  {
    ScanMeans(c, environment, |c.surfaces|, trials);
  }

  lemma {:induction false} BlockedIsNotValid(c: Config, ctx: Context, w: World, backend: Backend)
    requires Valid(c) && c.surfaces != [] && Coded(c, w.trials)
    requires CanaryRun(c, ctx, w, backend).Ended? && CanaryRun(c, ctx, w, backend).status != InfraFailed
    requires CanaryValid(c, CanaryRun(c, ctx, w, backend).values)
    ensures CanaryRun(c, ctx, w, backend).status == Pass || CanaryRun(c, ctx, w, backend).status == MetricFail
  {
    var out := CanaryRun(c, ctx, w, backend);
    CanaryRunIsGood(c, ctx, w, backend);
    if CanaryVerdict(c, ctx.environment, out.world.trials, out.status, out.values) {
      ValidVerdictPasses(c, ctx.environment, out.world.trials, out.status, out.values);
    }
  }

  // A failure that is forgotten: every surface, reported clean and in order, and an item nobody registered.

  function CleanItem(surface: string): Document {
    map["surface" := Text(surface), "hit_count" := Number(0, 0), "artifact_ref" := Text("ref"), "canary_digest" := Text("digest")]
  }

  function CleanItems(surfaces: seq<string>): seq<Value> {
    seq(|surfaces|, i requires 0 <= i < |surfaces| => Object(CleanItem(surfaces[i])))
  }

  function DriftedItems(surfaces: seq<string>, extra: string): seq<Value> {
    CleanItems(surfaces + [extra])
  }

  function ProvisioningProof(ctx: Context): Document {
    map["status" := Text("pass"), "producer_sha" := Text(ctx.producerSha),
        "environment_fingerprint" := Text(ctx.environment), "artifact_ref" := Text("ref")]
  }

  /** A backend that provisions and then lists the surfaces, all clean, before an item nobody registered. */
  ghost predicate Drifts(ctx: Context, surfaces: seq<string>, extra: string, backend: Backend) {
    && backend([Provisioning]) == Answered(ProvisioningProof(ctx))
    && backend([Provisioning, CanaryCollection]) == Answered(map["surfaces" := Listing(DriftedItems(surfaces, extra))])
  }

  lemma {:induction false} CleanItemNamed(surfaces: seq<string>, n: nat, i: nat)
    requires Distinct(surfaces) && i < n <= |surfaces|
    ensures LastNamed(CleanItems(surfaces), n, Text(surfaces[i])) == Some(CleanItem(surfaces[i]))
    decreases n
  {
    assert Get(CleanItem(surfaces[n - 1]), "surface") == Text(surfaces[n - 1]);
    if i < n - 1 {
      CleanItemNamed(surfaces, n - 1, i);
    }
  }

  lemma {:induction false} DriftedItemsAreClean(c: Config, extra: string, n: nat)
    requires Distinct(c.surfaces + [extra]) && n <= |c.surfaces|
    ensures AllClean(c, DriftedItems(c.surfaces, extra), n)
    decreases n
  {
    if n > 0 {
      DriftedItemsAreClean(c, extra, n - 1);
      CleanItemNamed(c.surfaces + [extra], |c.surfaces| + 1, n - 1);
      assert SurfaceItem(c, DriftedItems(c.surfaces, extra), n - 1) == CleanItem(c.surfaces[n - 1]);
      assert Clean(CleanItem(c.surfaces[n - 1]));
    }
  }

  lemma ListingDrifts(c: Config, ctx: Context, w: World, backend: Backend, result: Document, items: seq<Value>)
    requires c.trial(CanaryCollection) !in w.trials
    requires backend(w.calls + [CanaryCollection]) == Answered(result) && Get(result, "surfaces") == Listing(items)
    requires !ListMatches(c, items)
    ensures
      var out := Collect(c, ctx, w, backend);
      out.Ended? && out.status == MetricFail && out.values == Ordered(c, items, |c.surfaces|)
  {
  }

  lemma {:induction false} NothingScanned(c: Config, ctx: Context, w: World, backend: Backend, now: World)
    requires c.surfaces != [] && Provision(c, ctx, w, backend) == Going(now, []) && c.trial(Canary(0)) !in now.trials
    ensures CanaryRun(c, ctx, w, backend) == Collect(c, ctx, now, backend)
  {
    assert ScanSurfaces(c, ctx.environment, 1, now.trials) == Incomplete;
    ScanStops(c, ctx.environment, 1, now.trials);
  }

  /** A first provisioning that is answered well writes its own trial only. */
  lemma {:induction false} ProvisionAnswered(c: Config, ctx: Context, w: World, backend: Backend, result: Document) returns (now: World)
    requires Valid(c) && c.trial(Provisioning) !in w.trials
    requires backend(w.calls + [Provisioning]) == Answered(result) && ProvisioningValid(ctx, result)
    ensures Provision(c, ctx, w, backend) == Going(now, []) && now.calls == w.calls + [Provisioning]
    ensures c.trial(Canary(0)) in now.trials <==> c.trial(Canary(0)) in w.trials
    ensures c.trial(CanaryCollection) in now.trials <==> c.trial(CanaryCollection) in w.trials
  {
    now := Closed(c, ctx, Provisioning, Asked(c, ctx, Provisioning, w), Pass, result);
    AskedAndClosed(c, ctx, Provisioning, w, Pass, result);
    assert c.trial(Canary(0)) != c.trial(Provisioning) && c.trial(CanaryCollection) != c.trial(Provisioning);
  }

  lemma {:induction false} DriftedCollection(c: Config, ctx: Context, now: World, extra: string, backend: Backend)
    requires Valid(c) && extra !in c.surfaces && Drifts(ctx, c.surfaces, extra, backend)
    requires c.trial(CanaryCollection) !in now.trials && now.calls == [Provisioning]
    ensures
      var out := Collect(c, ctx, now, backend);
      out.Ended? && out.status == MetricFail && CanaryValid(c, out.values)
  {
    var items := DriftedItems(c.surfaces, extra);
    DriftedItemsAreClean(c, extra, |c.surfaces|);
    OrderedIsValidIff(c, items);
    assert now.calls + [CanaryCollection] == [Provisioning, CanaryCollection];
    ListingDrifts(c, ctx, now, backend, map["surfaces" := Listing(items)], items);
  }

  /** A first canary run of such a backend fails with a document that is valid. */
  lemma {:induction false} DriftedRun(c: Config, ctx: Context, extra: string, backend: Backend)
    requires Valid(c) && c.surfaces != [] && extra !in c.surfaces && Drifts(ctx, c.surfaces, extra, backend)
    ensures
      var first := CanaryRun(c, ctx, World(map[], []), backend);
      first.Ended? && first.status == MetricFail && CanaryValid(c, first.values)
  {
    var w := World(map[], []);
    assert w.calls + [Provisioning] == [Provisioning];
    var now := ProvisionAnswered(c, ctx, w, backend, ProvisioningProof(ctx));
    NothingScanned(c, ctx, w, backend, now);
    DriftedCollection(c, ctx, now, extra, backend);
  }

  /** The repetition of a canary verdict does fail, for any surfaces: a first run fails, the next one passes. */
  lemma {:induction false} DriftedListIsForgotten(c: Config, ctx: Context, extra: string, backend: Backend, other: Backend)
    requires Valid(c) && c.surfaces != [] && extra !in c.surfaces && Drifts(ctx, c.surfaces, extra, backend)
    ensures
      var first := CanaryRun(c, ctx, World(map[], []), backend);
      && first.Ended? && first.status == MetricFail
      && CanaryRun(c, ctx, first.world, other) == Ended(Pass, first.values, first.world)
  {
    EmptyIsCoded(c);
    DriftedRun(c, ctx, extra, backend);
    CanaryVerdictRepeatsIff(c, ctx, World(map[], []), backend, [], ctx, other);
  }
}
