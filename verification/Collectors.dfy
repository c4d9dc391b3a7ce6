/**
 * The access and canary collectors of `g02_collectors.py`, for any number of cells and surfaces: what
 * one run does to the journal, what it asks the backend, and the document it returns. The validators
 * are those of `g02_isolation.py`.
 */
module Collectors {
  import opened Prelude
  import opened Json
  import opened Journal
  import opened AccessContract

  // ---------------------------------------------------------------------------------------------
  // Units and their records.

  datatype Context = Context(producerSha: string, environment: string)

  datatype Unit = Provisioning | Access(cell: nat) | CanaryCollection | Canary(surface: nat)

  datatype Config = Config(
    contracts: seq<Contract>,
    surfaces: seq<string>,
    trial: Unit -> string)

  ghost predicate Valid(c: Config) {
    && (forall i, j | 0 <= i < j < |c.contracts| :: c.contracts[i].cellId != c.contracts[j].cellId)
    && Distinct(c.surfaces)
    && (forall a: Unit, b: Unit | c.trial(a) == c.trial(b) :: a == b)
  }

  predicate IsUnit(c: Config, u: Unit) {
    match u
    case Access(i) => i < |c.contracts|
    case Canary(i) => i < |c.surfaces|
    case _ => true
  }

  function UnitId(c: Config, u: Unit): string
    requires IsUnit(c, u)
  {
    match u
    case Provisioning => "isolation-provisioning"
    case Access(i) => c.contracts[i].cellId
    case CanaryCollection => "all-surface-collection"
    case Canary(i) => c.surfaces[i]
  }

  /** The producer is no part of a unit's key. */
  function UnitKey(c: Config, environment: string, u: Unit): Digest
    requires IsUnit(c, u)
  {
    KeyDigest(map["environment" := environment], map[], UnitId(c, u))
  }

  function OpeningPayload(c: Config, u: Unit): Payload
    requires IsUnit(c, u)
  {
    Object(map["unit_id" := Text(UnitId(c, u))])
  }

  function BeginUnit(c: Config, ctx: Context, u: Unit, trials: Trials): Trials
    requires IsUnit(c, u)
  {
    After(trials, Begin(c.trial(u), ctx.producerSha, UnitKey(c, ctx.environment, u), OpeningPayload(c, u)))
  }

  predicate IsRunning(trials: Trials, id: string) {
    id in trials && trials[id].current.status == Running
  }

  /** The payload of a finished unit. */
  function BoundPayload(c: Config, ctx: Context, u: Unit, result: Document): Payload
    requires IsUnit(c, u)
  {
    Object(map["producer_sha" := Text(ctx.producerSha), "environment_fingerprint" := Text(ctx.environment),
               "unit_id" := Text(UnitId(c, u)), "result" := Object(result)])
  }

  function FinishUnit(c: Config, ctx: Context, u: Unit, trials: Trials, status: Status, result: Document): Trials
    requires IsUnit(c, u)
  {
    var started := if IsRunning(trials, c.trial(u)) then trials else BeginUnit(c, ctx, u, trials);
    After(started, Finish(c.trial(u), status, BoundPayload(c, ctx, u, result)))
  }

  /** The result in a payload bound to this environment and unit, if it is an object. */
  function PayloadResult(payload: Payload, environment: string, unitId: string): Option<Document> {
    if payload.Object?
       && Get(payload.fields, "environment_fingerprint") == Text(environment)
       && Get(payload.fields, "unit_id") == Text(unitId)
       && Get(payload.fields, "result").Object?
    then Some(Get(payload.fields, "result").fields) else None
  }

  /** The result of a record bound to this unit and environment. */
  function BoundResult(c: Config, environment: string, u: Unit, trials: Trials): Option<Document>
    requires IsUnit(c, u) && c.trial(u) in trials
  {
    var e := trials[c.trial(u)].current;
    if e.cacheKey != UnitKey(c, environment, u) then None
    else PayloadResult(e.payload, environment, UnitId(c, u))
  }

  function Reusable(c: Config, environment: string, u: Unit, trials: Trials): Option<Document>
    requires IsUnit(c, u)
  {
    if c.trial(u) in trials && trials[c.trial(u)].current.status == Pass then BoundResult(c, environment, u, trials) else None
  }

  /** The result of an exact-bound verdict that must not be executed again. */
  function Sticky(c: Config, environment: string, u: Unit, trials: Trials): Option<Document>
    requires IsUnit(c, u)
  {
    if c.trial(u) in trials
       && (trials[c.trial(u)].current.status == MetricFail || trials[c.trial(u)].current.status == Blocked)
    then BoundResult(c, environment, u, trials) else None
  }

  function StatusOf(c: Config, u: Unit, trials: Trials): Status
    requires c.trial(u) in trials
  {
    trials[c.trial(u)].current.status
  }

  // ---------------------------------------------------------------------------------------------
  // One run. The backend is an adversary: what it answers may depend on every call made so far.

  datatype Answer =
    | Answered(result: Document)
    | Infrastructure(reason: string)
    | Refused(reason: string)
    | Escapes

  type Backend = seq<Unit> -> Answer

  datatype World = World(trials: Trials, calls: seq<Unit>)

  /** `Ended` returns a matrix document; `Raised` is an exception that leaves the collector. */
  datatype Outcome =
    | Going(world: World, values: seq<Document>)
    | Ended(status: Status, values: seq<Document>, world: World)
    | Raised(world: World)

  function Reason(reason: string): Document {
    map["reason_code" := Text(reason)]
  }

  function Asked(c: Config, ctx: Context, u: Unit, w: World): World
    requires IsUnit(c, u)
  {
    World(BeginUnit(c, ctx, u, w.trials), w.calls + [u])
  }

  function Closed(c: Config, ctx: Context, u: Unit, w: World, status: Status, result: Document): World
    requires IsUnit(c, u)
  {
    w.(trials := FinishUnit(c, ctx, u, w.trials, status, result))
  }

  predicate ProvisioningValid(ctx: Context, result: Document) {
    && Get(result, "status") == Text("pass")
    && Get(result, "producer_sha") == Text(ctx.producerSha)
    && Get(result, "environment_fingerprint") == Text(ctx.environment)
    && Truthy(Get(result, "artifact_ref"))
  }

  function AskForProvisioning(c: Config, ctx: Context, w: World, backend: Backend): Outcome {
    var asked := Asked(c, ctx, Provisioning, w);
    match backend(asked.calls)
    case Escapes => Raised(asked)
    case Infrastructure(reason) => Ended(InfraFailed, [], Closed(c, ctx, Provisioning, asked, InfraFailed, Reason(reason)))
    case Refused(reason) => Ended(Blocked, [], Closed(c, ctx, Provisioning, asked, Blocked, Reason(reason)))
    case Answered(result) =>
      if ProvisioningValid(ctx, result) then Going(Closed(c, ctx, Provisioning, asked, Pass, result), [])
      else Ended(Blocked, [], Closed(c, ctx, Provisioning, asked, Blocked, result))
  }

  /** `_ensure_provisioned`, with its two exceptions turned into the document both matrices return. */
  function Provision(c: Config, ctx: Context, w: World, backend: Backend): Outcome {
    if Reusable(c, ctx.environment, Provisioning, w.trials).Some? then Going(w, [])
    else if Sticky(c, ctx.environment, Provisioning, w.trials).Some? then Ended(Blocked, [], w)
    else AskForProvisioning(c, ctx, w, backend)
  }

  predicate CellWellFormed(contract: Contract, result: Document) {
    && Get(result, "cell_id") == Text(contract.cellId)
    && Get(result, "actual_allow").Flag?
    && Truthy(Get(result, "artifact_ref"))
  }

  /** One cell put to the backend; the fields of a result override those of the contract. */
  function ExecuteCell(c: Config, ctx: Context, i: nat, w: World, cells: seq<Document>, backend: Backend): Outcome
    requires i < |c.contracts|
  {
    var u, contract := Access(i), c.contracts[i];
    var asked := Asked(c, ctx, u, w);
    match backend(asked.calls)
    case Escapes => Raised(asked)
    case Infrastructure(reason) => Ended(InfraFailed, cells, Closed(c, ctx, u, asked, InfraFailed, Reason(reason)))
    case Refused(reason) => Ended(Blocked, cells, Closed(c, ctx, u, asked, Blocked, Reason(reason)))
    case Answered(result) =>
      if !CellWellFormed(contract, result) then Ended(Blocked, cells, Closed(c, ctx, u, asked, Blocked, result))
      else if Get(result, "actual_allow") == Flag(contract.expectedAllow) then
        Going(Closed(c, ctx, u, asked, Pass, result), cells + [contract.Fields() + result])
      else
        Ended(MetricFail, cells + [contract.Fields() + result], Closed(c, ctx, u, asked, MetricFail, result))
  }

  /** The loop body of `run_access_matrix`. */
  function AccessStep(c: Config, ctx: Context, i: nat, w: World, cells: seq<Document>, backend: Backend): Outcome
    requires i < |c.contracts|
  {
    var u, contract := Access(i), c.contracts[i];
    match Sticky(c, ctx.environment, u, w.trials)
    case Some(result) =>
      var status := StatusOf(c, u, w.trials);
      Ended(status, if status == MetricFail then cells + [contract.Fields() + result] else cells, w)
    case None =>
      match Reusable(c, ctx.environment, u, w.trials)
      case Some(result) => Going(w, cells + [contract.Fields() + result])
      case None => ExecuteCell(c, ctx, i, w, cells, backend)
  }

  /** The first `n` cells, from wherever provisioning has left the run. */
  function AccessFrom(c: Config, ctx: Context, n: nat, first: Outcome, backend: Backend): Outcome
    requires n <= |c.contracts|
  {
    if n == 0 then first
    else match AccessFrom(c, ctx, n - 1, first, backend)
      case Going(now, cells) => AccessStep(c, ctx, n - 1, now, cells, backend)
      case Ended(status, cells, now) => Ended(status, cells, now)
      case Raised(now) => Raised(now)
  }

  function AccessPrefix(c: Config, ctx: Context, n: nat, w: World, backend: Backend): Outcome
    requires n <= |c.contracts|
  {
    AccessFrom(c, ctx, n, Provision(c, ctx, w, backend), backend)
  }

  /** The last of the first `n` cells under this identifier. */
  function LastCell(cells: seq<Document>, n: nat, id: Value): Option<Document>
    requires n <= |cells|
  {
    if n == 0 then None
    else if Get(cells[n - 1], "cell_id") == id then Some(cells[n - 1])
    else LastCell(cells, n - 1, id)
  }

  predicate IsRegistered(c: Config, cell: Document) {
    exists j :: 0 <= j < |c.contracts| && Get(cell, "cell_id") == Text(c.contracts[j].cellId)
  }

  /** `validate_live_access_matrix`; a document built by the collector always carries its own context. */
  predicate LiveAccessValid(c: Config, cells: seq<Document>) {
    && |cells| == |c.contracts|
    && (forall i | 0 <= i < |cells| :: IsRegistered(c, cells[i]))
    && (forall j | 0 <= j < |c.contracts| ::
          match LastCell(cells, |cells|, Text(c.contracts[j].cellId))
          case None => false
          case Some(cell) => Get(cell, "actual_allow") == Flag(c.contracts[j].expectedAllow) && Truthy(Get(cell, "artifact_ref")))
  }

  function AccessRun(c: Config, ctx: Context, w: World, backend: Backend): Outcome {
    match AccessPrefix(c, ctx, |c.contracts|, w, backend)
    case Going(now, cells) => if LiveAccessValid(c, cells) then Ended(Pass, cells, now) else Raised(now)
    case Ended(status, cells, now) => Ended(status, cells, now)
    case Raised(now) => Raised(now)
  }

  // ---------------------------------------------------------------------------------------------
  // The canary matrix.

  datatype Scan = Complete(values: seq<Document>) | Incomplete | Stopped(status: Status, values: seq<Document>)

  /** The reuse loop's body for the surface at `i`. */
  function ScanNext(c: Config, environment: string, i: nat, values: seq<Document>, trials: Trials): Scan
    requires i < |c.surfaces|
  {
    if Sticky(c, environment, Canary(i), trials).Some? then Stopped(StatusOf(c, Canary(i), trials), values)
    else match Reusable(c, environment, Canary(i), trials)
      case None => Incomplete
      case Some(result) => Complete(values + [result])
  }

  /** The reuse loop over the first `n` surfaces. */
  function ScanSurfaces(c: Config, environment: string, n: nat, trials: Trials): Scan
    requires n <= |c.surfaces|
  {
    if n == 0 then Complete([])
    else match ScanSurfaces(c, environment, n - 1, trials)
      case Incomplete => Incomplete
      case Stopped(status, values) => Stopped(status, values)
      case Complete(values) => ScanNext(c, environment, n - 1, values, trials)
  }

  /** The surfaces named by the first `n` items, each where it was first named; other items name none. */
  function Named(items: seq<Value>, n: nat): seq<Value>
    requires n <= |items|
  {
    if n == 0 then [] else
      var before := Named(items, n - 1);
      if !items[n - 1].Object? then before
      else
        var surface := Get(items[n - 1].fields, "surface");
        if surface in before then before else before + [surface]
  }

  function LastNamed(items: seq<Value>, n: nat, surface: Value): Option<Document>
    requires n <= |items|
  {
    if n == 0 then None
    else if items[n - 1].Object? && Get(items[n - 1].fields, "surface") == surface then Some(items[n - 1].fields)
    else LastNamed(items, n - 1, surface)
  }

  function SurfaceItem(c: Config, items: seq<Value>, i: nat): Document
    requires i < |c.surfaces|
  {
    match LastNamed(items, |items|, Text(c.surfaces[i]))
    case Some(item) => item
    case None => map["surface" := Text(c.surfaces[i]), "hit_count" := Number(-1, 0)]
  }

  predicate Clean(item: Document) {
    IsZero(Get(item, "hit_count")) && Truthy(Get(item, "artifact_ref")) && Truthy(Get(item, "canary_digest"))
  }

  function SurfaceTexts(c: Config): seq<Value> {
    seq(|c.surfaces|, i requires 0 <= i < |c.surfaces| => Text(c.surfaces[i]))
  }

  /** The backend listed exactly the registered surfaces, once each and in order. */
  predicate ListMatches(c: Config, items: seq<Value>) {
    |items| == |c.surfaces| && Named(items, |items|) == SurfaceTexts(c)
  }

  /** The recording loop over the first `n` surfaces. */
  function RecordSurfaces(c: Config, ctx: Context, items: seq<Value>, n: nat, trials: Trials): Trials
    requires n <= |c.surfaces|
  {
    if n == 0 then trials else
      var item := SurfaceItem(c, items, n - 1);
      FinishUnit(c, ctx, Canary(n - 1), RecordSurfaces(c, ctx, items, n - 1, trials), if Clean(item) then Pass else MetricFail, item)
  }

  function Ordered(c: Config, items: seq<Value>, n: nat): seq<Document>
    requires n <= |c.surfaces|
  {
    if n == 0 then [] else Ordered(c, items, n - 1) + [SurfaceItem(c, items, n - 1)]
  }

  predicate AllClean(c: Config, items: seq<Value>, n: nat)
    requires n <= |c.surfaces|
  {
    n == 0 || (AllClean(c, items, n - 1) && Clean(SurfaceItem(c, items, n - 1)))
  }

  /** `validate_all_surface_canary`. */
  predicate CanaryValid(c: Config, surfaces: seq<Document>) {
    && |surfaces| == |c.surfaces|
    && (forall i | 0 <= i < |surfaces| :: Get(surfaces[i], "surface") == Text(c.surfaces[i]))
    && (forall i | 0 <= i < |surfaces| :: Clean(surfaces[i]))
  }

  function Validated(c: Config, values: seq<Document>, w: World): Outcome {
    if CanaryValid(c, values) then Ended(Pass, values, w) else Raised(w)
  }

  /** The part of `run_canary_matrix` after the reuse loop. */
  function Collect(c: Config, ctx: Context, w: World, backend: Backend): Outcome {
    var u := CanaryCollection;
    if Sticky(c, ctx.environment, u, w.trials).Some? then Ended(StatusOf(c, u, w.trials), [], w)
    else
      var asked := Asked(c, ctx, u, w);
      match backend(asked.calls)
      case Escapes => Raised(asked)
      case Infrastructure(reason) => Ended(InfraFailed, [], Closed(c, ctx, u, asked, InfraFailed, Reason(reason)))
      case Refused(reason) => Ended(Blocked, [], Closed(c, ctx, u, asked, Blocked, Reason(reason)))
      case Answered(result) =>
        if !Get(result, "surfaces").Listing? then Ended(Blocked, [], Closed(c, ctx, u, asked, Blocked, result))
        else
          var items := Get(result, "surfaces").items;
          var collected := Closed(c, ctx, u, asked, Pass, result);
          var recorded := collected.(trials := RecordSurfaces(c, ctx, items, |c.surfaces|, collected.trials));
          var ordered := Ordered(c, items, |c.surfaces|);
          if ListMatches(c, items) && AllClean(c, items, |c.surfaces|) then Validated(c, ordered, recorded)
          else Ended(MetricFail, ordered, recorded)
  }

  function CanaryRun(c: Config, ctx: Context, w: World, backend: Backend): Outcome {
    match Provision(c, ctx, w, backend)
    case Ended(status, values, now) => Ended(status, values, now)
    case Raised(now) => Raised(now)
    case Going(now, _) =>
      match ScanSurfaces(c, ctx.environment, |c.surfaces|, now.trials)
      case Stopped(status, values) => Ended(status, values, now)
      case Incomplete => Collect(c, ctx, now, backend)
      case Complete(values) => if values != [] then Validated(c, values, now) else Collect(c, ctx, now, backend)
  }

  // ---------------------------------------------------------------------------------------------
  // The collectors themselves.

  class ProbeBackend {
    const answers: Backend
    var calls: seq<Unit>

    constructor (answers: Backend)
      ensures calls == [] && this.answers == answers
    {
      this.answers := answers;
      calls := [];
    }

    method Call(u: Unit) returns (answer: Answer)
      modifies this
      ensures calls == old(calls) + [u] && answer == answers(calls)
    {
      calls := calls + [u];
      answer := answers(calls);
    }
  }

  class Collector {
    const c: Config
    const ctx: Context
    const journal: TrialJournal
    const backend: ProbeBackend

    constructor (c: Config, ctx: Context, journal: TrialJournal, backend: ProbeBackend)
      ensures this.c == c && this.ctx == ctx && this.journal == journal && this.backend == backend
    {
      this.c, this.ctx, this.journal, this.backend := c, ctx, journal, backend;
    }

    ghost function Now(): World
      reads journal, backend
    {
      World(journal.trials, backend.calls)
    }

    method Start(u: Unit)
      requires IsUnit(c, u)
      modifies journal
      ensures journal.trials == BeginUnit(c, ctx, u, old(journal.trials))
    {
      var _ := journal.BeginTrial(c.trial(u), ctx.producerSha, UnitKey(c, ctx.environment, u), OpeningPayload(c, u));
    }

    method Finish(u: Unit, status: Status, result: Document)
      requires IsUnit(c, u)
      modifies journal
      ensures journal.trials == FinishUnit(c, ctx, u, old(journal.trials), status, result)
    {
      var running := journal.Read(c.trial(u));
      if running.None? || running.value.current.status != Running {
        Start(u);
      }
      var _ := journal.FinishTrial(c.trial(u), status, BoundPayload(c, ctx, u, result));
    }

    method EnsureProvisioned() returns (out: Outcome)
      modifies journal, backend
      ensures out == Provision(c, ctx, old(Now()), backend.answers) && out.world == Now()
    {
      if Reusable(c, ctx.environment, Provisioning, journal.trials).Some? {
        return Going(World(journal.trials, backend.calls), []);
      }
      if Sticky(c, ctx.environment, Provisioning, journal.trials).Some? {
        return Ended(Blocked, [], World(journal.trials, backend.calls));
      }
      Start(Provisioning);
      var answer := backend.Call(Provisioning);
      match answer {
        case Escapes =>
          return Raised(World(journal.trials, backend.calls));
        case Infrastructure(reason) =>
          Finish(Provisioning, InfraFailed, Reason(reason));
          return Ended(InfraFailed, [], World(journal.trials, backend.calls));
        case Refused(reason) =>
          Finish(Provisioning, Blocked, Reason(reason));
          return Ended(Blocked, [], World(journal.trials, backend.calls));
        case Answered(result) =>
          if !ProvisioningValid(ctx, result) {
            Finish(Provisioning, Blocked, result);
            return Ended(Blocked, [], World(journal.trials, backend.calls));
          }
          Finish(Provisioning, Pass, result);
          return Going(World(journal.trials, backend.calls), []);
      }
    }

    method AskForCell(i: nat, cells: seq<Document>) returns (out: Outcome)
      requires i < |c.contracts|
      modifies journal, backend
      ensures out == ExecuteCell(c, ctx, i, old(Now()), cells, backend.answers) && out.world == Now()
    {
      var u, contract := Access(i), c.contracts[i];
      Start(u);
      var answer := backend.Call(u);
      match answer {
        case Escapes =>
          return Raised(World(journal.trials, backend.calls));
        case Infrastructure(reason) =>
          Finish(u, InfraFailed, Reason(reason));
          return Ended(InfraFailed, cells, World(journal.trials, backend.calls));
        case Refused(reason) =>
          Finish(u, Blocked, Reason(reason));
          return Ended(Blocked, cells, World(journal.trials, backend.calls));
        case Answered(result) =>
          if !CellWellFormed(contract, result) {
            Finish(u, Blocked, result);
            return Ended(Blocked, cells, World(journal.trials, backend.calls));
          }
          var cell := contract.Fields() + result;
          if Get(result, "actual_allow") != Flag(contract.expectedAllow) {
            Finish(u, MetricFail, result);
            return Ended(MetricFail, cells + [cell], World(journal.trials, backend.calls));
          }
          Finish(u, Pass, result);
          return Going(World(journal.trials, backend.calls), cells + [cell]);
      }
    }

    /** One cell: a verdict on record, a reusable result, or a call to the backend. */
    method VisitCell(i: nat, cells: seq<Document>) returns (out: Outcome)
      requires i < |c.contracts|
      modifies journal, backend
      ensures out == AccessStep(c, ctx, i, old(Now()), cells, backend.answers) && out.world == Now()
    {
      var u, contract := Access(i), c.contracts[i];
      var sticky := Sticky(c, ctx.environment, u, journal.trials);
      if sticky.Some? {
        var status := StatusOf(c, u, journal.trials);
        var reported := if status == MetricFail then cells + [contract.Fields() + sticky.value] else cells;
        return Ended(status, reported, World(journal.trials, backend.calls));
      }
      var reusable := Reusable(c, ctx.environment, u, journal.trials);
      if reusable.Some? {
        return Going(World(journal.trials, backend.calls), cells + [contract.Fields() + reusable.value]);
      }
      out := AskForCell(i, cells);
    }

    /** One more cell of a run that is still going. */
    method Advance(i: nat, ghost first: Outcome, cells: seq<Document>) returns (out: Outcome)
      requires i < |c.contracts| && AccessFrom(c, ctx, i, first, backend.answers) == Going(Now(), cells)
      modifies journal, backend
      ensures out == AccessFrom(c, ctx, i + 1, first, backend.answers) && out.world == Now()
    {
      out := VisitCell(i, cells);
    }

    /** The cell loop, from wherever provisioning has left the run, up to the cell it stops at. */
    method VisitCells(first: Outcome) returns (out: Outcome, i: nat)
      requires first.world == Now()
      modifies journal, backend
      ensures i <= |c.contracts| && (out.Going? ==> i == |c.contracts|)
      ensures out == AccessFrom(c, ctx, i, first, backend.answers) && out.world == Now()
    {
      out, i := first, 0;
      while out.Going? && i < |c.contracts|
        invariant i <= |c.contracts|
        invariant out == AccessFrom(c, ctx, i, first, backend.answers)
        invariant out.world == Now()
      {
        out := Advance(i, first, out.values);
        i := i + 1;
      }
    }

    method RunAccessMatrix() returns (out: Outcome)
      modifies journal, backend
      ensures out == AccessRun(c, ctx, old(Now()), backend.answers) && out.world == Now()
    {
      var first := EnsureProvisioned();
      var i;
      out, i := VisitCells(first);
      AccessStops(c, ctx, i, first, backend.answers);
      if out.Going? {
        out := if LiveAccessValid(c, out.values) then Ended(Pass, out.values, out.world) else Raised(out.world);
      }
    }

    method ScanOne(i: nat, values: seq<Document>) returns (scan: Scan)
      requires i < |c.surfaces|
      ensures scan == ScanNext(c, ctx.environment, i, values, journal.trials)
    {
      if Sticky(c, ctx.environment, Canary(i), journal.trials).Some? {
        return Stopped(StatusOf(c, Canary(i), journal.trials), values);
      }
      var result := Reusable(c, ctx.environment, Canary(i), journal.trials);
      if result.None? {
        return Incomplete;
      }
      return Complete(values + [result.value]);
    }

    /** The reuse loop. */
    method Rescan() returns (scan: Scan)
      ensures scan == ScanSurfaces(c, ctx.environment, |c.surfaces|, journal.trials)
    {
      scan := Complete([]);
      var i := 0;
      while scan.Complete? && i < |c.surfaces|
        invariant i <= |c.surfaces| && scan == ScanSurfaces(c, ctx.environment, i, journal.trials)
      {
        scan := ScanOne(i, scan.values);
        i := i + 1;
      }
      ScanStops(c, ctx.environment, i, journal.trials);
    }

    /** The recording loop has done the first `n` surfaces. */
    ghost predicate RecordedUpTo(items: seq<Value>, n: nat, start: Trials, now: Trials, ordered: seq<Document>, allClean: bool)
      requires n <= |c.surfaces|
    {
      now == RecordSurfaces(c, ctx, items, n, start) && ordered == Ordered(c, items, n) && allClean == AllClean(c, items, n)
    }

    method RecordOne(items: seq<Value>, i: nat, before: seq<Document>, cleanBefore: bool, ghost start: Trials)
      returns (ordered: seq<Document>, allClean: bool)
      requires i < |c.surfaces| && RecordedUpTo(items, i, start, journal.trials, before, cleanBefore)
      modifies journal
      ensures RecordedUpTo(items, i + 1, start, journal.trials, ordered, allClean)
    {
      var item := SurfaceItem(c, items, i);
      Finish(Canary(i), if Clean(item) then Pass else MetricFail, item);
      ordered, allClean := before + [item], cleanBefore && Clean(item);
    }

    /** The recording loop: every registered surface gets a verdict, listed or not. */
    method RecordAll(items: seq<Value>) returns (ordered: seq<Document>, allClean: bool)
      modifies journal
      ensures journal.trials == RecordSurfaces(c, ctx, items, |c.surfaces|, old(journal.trials))
      ensures ordered == Ordered(c, items, |c.surfaces|) && allClean == AllClean(c, items, |c.surfaces|)
    {
      ghost var start := journal.trials;
      ordered, allClean := [], true;
      for i := 0 to |c.surfaces|
        invariant RecordedUpTo(items, i, start, journal.trials, ordered, allClean)
      {
        ordered, allClean := RecordOne(items, i, ordered, allClean, start);
      }
    }

    method CollectSurfaces() returns (out: Outcome)
      modifies journal, backend
      ensures out == Collect(c, ctx, old(Now()), backend.answers) && out.world == Now()
    {
      var u := CanaryCollection;
      if Sticky(c, ctx.environment, u, journal.trials).Some? {
        return Ended(StatusOf(c, u, journal.trials), [], World(journal.trials, backend.calls));
      }
      Start(u);
      var answer := backend.Call(u);
      match answer {
        case Escapes =>
          return Raised(World(journal.trials, backend.calls));
        case Infrastructure(reason) =>
          Finish(u, InfraFailed, Reason(reason));
          return Ended(InfraFailed, [], World(journal.trials, backend.calls));
        case Refused(reason) =>
          Finish(u, Blocked, Reason(reason));
          return Ended(Blocked, [], World(journal.trials, backend.calls));
        case Answered(result) =>
          if !Get(result, "surfaces").Listing? {
            Finish(u, Blocked, result);
            return Ended(Blocked, [], World(journal.trials, backend.calls));
          }
          Finish(u, Pass, result);
          var items := Get(result, "surfaces").items;
          var ordered, allClean := RecordAll(items);
          if ListMatches(c, items) && allClean {
            return Validated(c, ordered, World(journal.trials, backend.calls));
          }
          return Ended(MetricFail, ordered, World(journal.trials, backend.calls));
      }
    }

    method RunCanaryMatrix() returns (out: Outcome)
      modifies journal, backend
      ensures out == CanaryRun(c, ctx, old(Now()), backend.answers) && out.world == Now()
    {
      out := EnsureProvisioned();
      if !out.Going? {
        return;
      }
      var scan := Rescan();
      match scan {
        case Stopped(status, values) => out := Ended(status, values, World(journal.trials, backend.calls));
        case Incomplete => out := CollectSurfaces();
        case Complete(values) =>
          if values != [] {
            out := Validated(c, values, World(journal.trials, backend.calls));
          } else {
            out := CollectSurfaces();
          }
      }
    }
  }

  lemma {:induction false} AccessHolds(c: Config, ctx: Context, n: nat, first: Outcome, backend: Backend)
    requires n < |c.contracts| && !AccessFrom(c, ctx, n, first, backend).Going?
    ensures AccessFrom(c, ctx, n + 1, first, backend) == AccessFrom(c, ctx, n, first, backend)
  {
  }

  /** A run that has ended or raised stays so. */
  lemma {:induction false} AccessStops(c: Config, ctx: Context, n: nat, first: Outcome, backend: Backend)
    requires n <= |c.contracts|
    ensures !AccessFrom(c, ctx, n, first, backend).Going? ==>
              AccessFrom(c, ctx, |c.contracts|, first, backend) == AccessFrom(c, ctx, n, first, backend)
    decreases |c.contracts| - n
  {
    if n < |c.contracts| && !AccessFrom(c, ctx, n, first, backend).Going? {
      AccessHolds(c, ctx, n, first, backend);
      AccessStops(c, ctx, n + 1, first, backend);
    }
  }

  lemma {:induction false} ScanStops(c: Config, environment: string, n: nat, trials: Trials)
    requires n <= |c.surfaces|
    ensures n == |c.surfaces| || !ScanSurfaces(c, environment, n, trials).Complete? ==>
              ScanSurfaces(c, environment, |c.surfaces|, trials) == ScanSurfaces(c, environment, n, trials)
    decreases |c.surfaces| - n
  {
    if n < |c.surfaces| {
      ScanStops(c, environment, n + 1, trials);
    }
  }
}
