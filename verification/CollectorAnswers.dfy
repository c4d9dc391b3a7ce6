/**
 * What each answer of the backend means for the record of the unit it was asked for, for the matrix,
 * and for the runs that follow: which units are asked for again, and which verdicts are final.
 */
module CollectorAnswers {
  import opened Prelude
  import opened Json
  import opened Journal
  import opened AccessContract
  import opened Collectors
  import opened CollectorTheorems
  import opened CollectorVerdicts

  /** An infrastructure failure and an escaping exception leave a unit open; a refusal and an answer decide it. */
  predicate LeavesOpen(answer: Answer) {
    answer.Infrastructure? || answer.Escapes?
  }

  /** The unit's record carries this status under this environment's key. */
  ghost predicate RecordedAs(c: Config, environment: string, u: Unit, trials: Trials, status: Status)
    requires IsUnit(c, u)
  {
    && c.trial(u) in trials && trials[c.trial(u)].current.status == status
    && trials[c.trial(u)].current.cacheKey == UnitKey(c, environment, u)
  }

  lemma {:induction false} ClosedIsRecorded(c: Config, ctx: Context, u: Unit, w: World, status: Status, result: Document)
    requires Valid(c) && IsUnit(c, u) && status.Terminal()
    ensures
      var after := Closed(c, ctx, u, Asked(c, ctx, u, w), status, result);
      && RecordedAs(c, ctx.environment, u, after.trials, status) && after.calls == w.calls + [u]
      && (Reusable(c, ctx.environment, u, after.trials) == if status == Pass then Some(result) else None)
      && (Sticky(c, ctx.environment, u, after.trials) == if status == MetricFail || status == Blocked then Some(result) else None)
  {
    AskedAndClosed(c, ctx, u, w, status, result);
    FinishedSettles(c, ctx, u, Closed(c, ctx, u, Asked(c, ctx, u, w), status, result).trials, status, result, ctx.environment);
  }

  lemma {:induction false} AskedIsOpen(c: Config, ctx: Context, u: Unit, w: World)
    requires Valid(c) && IsUnit(c, u)
    ensures
      var after := Asked(c, ctx, u, w);
      && RecordedAs(c, ctx.environment, u, after.trials, Running) && after.calls == w.calls + [u]
      && Reusable(c, ctx.environment, u, after.trials).None? && Sticky(c, ctx.environment, u, after.trials).None?
  {
    AskedShape(c, ctx, u, w);
  }

  /** A payload that names this environment and this unit, and holds the result. */
  ghost predicate Binds(payload: Payload, environment: string, unitId: string, result: Document) {
    && payload.Object?
    && "environment_fingerprint" in payload.fields && payload.fields["environment_fingerprint"] == Text(environment)
    && "unit_id" in payload.fields && payload.fields["unit_id"] == Text(unitId)
    && "result" in payload.fields && payload.fields["result"] == Object(result)
  }

  /** Exactly which records of a journal are reused, and which are verdicts that are not asked for again. */
  lemma {:induction false} BoundIff(c: Config, environment: string, u: Unit, trials: Trials, result: Document)
    requires IsUnit(c, u)
    ensures
      var bound := c.trial(u) in trials && Binds(trials[c.trial(u)].current.payload, environment, UnitId(c, u), result)
                   && trials[c.trial(u)].current.cacheKey == KeyDigest(map["environment" := environment], map[], UnitId(c, u));
      && (Reusable(c, environment, u, trials) == Some(result) <==> bound && trials[c.trial(u)].current.status == Pass)
      && (Sticky(c, environment, u, trials) == Some(result) <==>
            bound && (trials[c.trial(u)].current.status == MetricFail || trials[c.trial(u)].current.status == Blocked))
  {
  }

  /** No two cells and no two surfaces stand under the same name. */
  lemma {:induction false} NamesDiffer(c: Config, i: nat, j: nat)
    requires Valid(c)
    ensures i < j < |c.contracts| ==> UnitId(c, Access(i)) != UnitId(c, Access(j))
    ensures i < j < |c.surfaces| ==> UnitId(c, Canary(i)) != UnitId(c, Canary(j))
  {
  }

  /** The record of a closed unit names its producer, its environment and itself beside the result. */
  lemma {:induction false} ClosedNames(c: Config, ctx: Context, u: Unit, w: World, status: Status, result: Document)
    requires Valid(c) && IsUnit(c, u) && status.Terminal()
    ensures
      var after := Closed(c, ctx, u, Asked(c, ctx, u, w), status, result).trials;
      && c.trial(u) in after && after[c.trial(u)].current.producerSha == ctx.producerSha
      && Binds(after[c.trial(u)].current.payload, ctx.environment, UnitId(c, u), result)
      && "producer_sha" in after[c.trial(u)].current.payload.fields
      && after[c.trial(u)].current.payload.fields["producer_sha"] == Text(ctx.producerSha)
  {
  }

  // ---------------------------------------------------------------------------------------------
  // Provisioning.

  /** The fields of a provisioning that counts. */
  ghost predicate Provisioned(ctx: Context, result: Document) {
    && "status" in result && result["status"] == Text("pass")
    && "producer_sha" in result && result["producer_sha"] == Text(ctx.producerSha)
    && "environment_fingerprint" in result && result["environment_fingerprint"] == Text(ctx.environment)
    && "artifact_ref" in result && Truthy(result["artifact_ref"])
  }

  /** What an answer to the provisioning request comes to. */
  ghost predicate ProvisioningDecided(c: Config, ctx: Context, answer: Answer, out: Outcome) {
    match answer
    case Escapes => out.Raised? && RecordedAs(c, ctx.environment, Provisioning, out.world.trials, Running)
    case Infrastructure(_) =>
      out.Ended? && out.status == InfraFailed && out.values == [] && RecordedAs(c, ctx.environment, Provisioning, out.world.trials, InfraFailed)
    case Refused(_) =>
      out.Ended? && out.status == Blocked && out.values == [] && RecordedAs(c, ctx.environment, Provisioning, out.world.trials, Blocked)
    case Answered(result) =>
      if Provisioned(ctx, result)
      then out.Going? && RecordedAs(c, ctx.environment, Provisioning, out.world.trials, Pass)
      else out.Ended? && out.status == Blocked && RecordedAs(c, ctx.environment, Provisioning, out.world.trials, Blocked)
  }

  /** An unsettled provisioning is asked for once, and the answer decides record, outcome and what comes after. */
  lemma {:induction false} ProvisioningAnswers(c: Config, ctx: Context, w: World, backend: Backend, answer: Answer)
    requires Valid(c) && !Settled(c, ctx.environment, Provisioning, w.trials) && answer == backend(w.calls + [Provisioning])
    ensures Provision(c, ctx, w, backend).world.calls == w.calls + [Provisioning]
    ensures ProvisioningDecided(c, ctx, answer, Provision(c, ctx, w, backend))
    ensures Settled(c, ctx.environment, Provisioning, Provision(c, ctx, w, backend).world.trials) <==> !LeavesOpen(answer)
  {
    AskedIsOpen(c, ctx, Provisioning, w);
    match answer
    case Escapes =>
    case Infrastructure(reason) => ClosedIsRecorded(c, ctx, Provisioning, w, InfraFailed, Reason(reason));
    case Refused(reason) => ClosedIsRecorded(c, ctx, Provisioning, w, Blocked, Reason(reason));
    case Answered(result) =>
      ClosedIsRecorded(c, ctx, Provisioning, w, if ProvisioningValid(ctx, result) then Pass else Blocked, result);
  }

  /** The next run in the environment asks for provisioning again exactly after an answer that left it open. */
  lemma {:induction false} ProvisioningAskedAgainIff(c: Config, ctx: Context, w: World, backend: Backend, later: Context, other: Backend)
    requires Valid(c) && !Settled(c, ctx.environment, Provisioning, w.trials) && later.environment == ctx.environment
    ensures
      var first := Provision(c, ctx, w, backend);
      var second := Provision(c, later, first.world, other);
      && (second.world.calls == first.world.calls + [Provisioning] <==> LeavesOpen(backend(w.calls + [Provisioning])))
      && (!LeavesOpen(backend(w.calls + [Provisioning])) ==> second.world == first.world)
  {
    var first := Provision(c, ctx, w, backend);
    ProvisioningAnswers(c, ctx, w, backend, backend(w.calls + [Provisioning]));
    if LeavesOpen(backend(w.calls + [Provisioning])) {
      ProvisioningAnswers(c, later, first.world, other, other(first.world.calls + [Provisioning]));
    } else {
      assert |first.world.calls + [Provisioning]| != |first.world.calls|;
    }
  }

  // ---------------------------------------------------------------------------------------------
  // Access cells.

  /** An answer about a cell that can be judged, and whether it shows what the contract expects. */
  ghost predicate Judgeable(contract: Contract, result: Document) {
    && "cell_id" in result && result["cell_id"] == Text(contract.cellId)
    && "actual_allow" in result && result["actual_allow"].Flag?
    && "artifact_ref" in result && Truthy(result["artifact_ref"])
  }

  ghost predicate CellDecided(c: Config, ctx: Context, i: nat, cells: seq<Document>, answer: Answer, out: Outcome)
    requires i < |c.contracts|
  {
    var contract, u := c.contracts[i], Access(i);
    match answer
    case Escapes => out.Raised? && RecordedAs(c, ctx.environment, u, out.world.trials, Running)
    case Infrastructure(_) =>
      out.Ended? && out.status == InfraFailed && out.values == cells && RecordedAs(c, ctx.environment, u, out.world.trials, InfraFailed)
    case Refused(_) =>
      out.Ended? && out.status == Blocked && out.values == cells && RecordedAs(c, ctx.environment, u, out.world.trials, Blocked)
    case Answered(result) =>
      if !Judgeable(contract, result) then
        out.Ended? && out.status == Blocked && out.values == cells && RecordedAs(c, ctx.environment, u, out.world.trials, Blocked)
      else if result["actual_allow"].flag == contract.expectedAllow then
        out.Going? && out.values == cells + [contract.Fields() + result] && RecordedAs(c, ctx.environment, u, out.world.trials, Pass)
      else
        out.Ended? && out.status == MetricFail && out.values == cells + [contract.Fields() + result]
        && RecordedAs(c, ctx.environment, u, out.world.trials, MetricFail)
  }

  /** The status an answered cell is recorded under. */
  function CellStatus(contract: Contract, result: Document): Status {
    if !CellWellFormed(contract, result) then Blocked
    else if Get(result, "actual_allow") == Flag(contract.expectedAllow) then Pass else MetricFail
  }

  lemma {:induction false} AnsweredCell(c: Config, ctx: Context, i: nat, w: World, cells: seq<Document>, backend: Backend, result: Document)
    requires Valid(c) && i < |c.contracts| && backend(w.calls + [Access(i)]) == Answered(result)
    ensures CellDecided(c, ctx, i, cells, Answered(result), ExecuteCell(c, ctx, i, w, cells, backend))
    ensures Settled(c, ctx.environment, Access(i), ExecuteCell(c, ctx, i, w, cells, backend).world.trials)
    ensures ExecuteCell(c, ctx, i, w, cells, backend).world.calls == w.calls + [Access(i)]
  {
    ClosedIsRecorded(c, ctx, Access(i), w, CellStatus(c.contracts[i], result), result);
  }

  lemma {:induction false} UnansweredCell(c: Config, ctx: Context, i: nat, w: World, cells: seq<Document>, backend: Backend, answer: Answer)
    requires Valid(c) && i < |c.contracts| && answer == backend(w.calls + [Access(i)]) && !answer.Answered?
    ensures CellDecided(c, ctx, i, cells, answer, ExecuteCell(c, ctx, i, w, cells, backend))
    ensures Settled(c, ctx.environment, Access(i), ExecuteCell(c, ctx, i, w, cells, backend).world.trials) <==> !LeavesOpen(answer)
    ensures ExecuteCell(c, ctx, i, w, cells, backend).world.calls == w.calls + [Access(i)]
  {
    AskedIsOpen(c, ctx, Access(i), w);
    match answer
    case Escapes =>
    case Infrastructure(reason) => ClosedIsRecorded(c, ctx, Access(i), w, InfraFailed, Reason(reason));
    case Refused(reason) => ClosedIsRecorded(c, ctx, Access(i), w, Blocked, Reason(reason));
  }

  /** An unsettled cell is asked for once, and the answer decides record, outcome and what comes after. */
  lemma {:induction false} CellAnswers(c: Config, ctx: Context, i: nat, w: World, cells: seq<Document>, backend: Backend, answer: Answer)
    requires Valid(c) && i < |c.contracts| && !Settled(c, ctx.environment, Access(i), w.trials) && answer == backend(w.calls + [Access(i)])
    ensures AccessStep(c, ctx, i, w, cells, backend).world.calls == w.calls + [Access(i)]
    ensures CellDecided(c, ctx, i, cells, answer, AccessStep(c, ctx, i, w, cells, backend))
    ensures Settled(c, ctx.environment, Access(i), AccessStep(c, ctx, i, w, cells, backend).world.trials) <==> !LeavesOpen(answer)
  {
    match answer
    case Answered(result) => AnsweredCell(c, ctx, i, w, cells, backend, result);
    case _ => UnansweredCell(c, ctx, i, w, cells, backend, answer);
  }

  /** A later visit of the cell in the environment asks again exactly after an answer that left it open. */
  lemma {:induction false} CellAskedAgainIff(c: Config, ctx: Context, i: nat, w: World, cells: seq<Document>, backend: Backend,
                                             later: Context, others: seq<Document>, other: Backend)
    requires Valid(c) && i < |c.contracts| && !Settled(c, ctx.environment, Access(i), w.trials) && later.environment == ctx.environment
    ensures
      var first := AccessStep(c, ctx, i, w, cells, backend);
      var second := AccessStep(c, later, i, first.world, others, other);
      && (second.world.calls == first.world.calls + [Access(i)] <==> LeavesOpen(backend(w.calls + [Access(i)])))
      && (!LeavesOpen(backend(w.calls + [Access(i)])) ==> second.world == first.world)
  {
    var first := AccessStep(c, ctx, i, w, cells, backend);
    CellAnswers(c, ctx, i, w, cells, backend, backend(w.calls + [Access(i)]));
    if LeavesOpen(backend(w.calls + [Access(i)])) {
      CellAnswers(c, later, i, first.world, others, other, other(first.world.calls + [Access(i)]));
    } else {
      assert |first.world.calls + [Access(i)]| != |first.world.calls|;
    }
  }

  // ---------------------------------------------------------------------------------------------
  // The canary collection.

  /** An answer that lists anything records every surface; any other decides the collection itself. */
  ghost predicate CollectionDecided(c: Config, ctx: Context, answer: Answer, out: Outcome) {
    match answer
    case Escapes => out.Raised? && RecordedAs(c, ctx.environment, CanaryCollection, out.world.trials, Running)
    case Infrastructure(_) =>
      out.Ended? && out.status == InfraFailed && out.values == []
      && RecordedAs(c, ctx.environment, CanaryCollection, out.world.trials, InfraFailed)
    case Refused(_) =>
      out.Ended? && out.status == Blocked && out.values == [] && RecordedAs(c, ctx.environment, CanaryCollection, out.world.trials, Blocked)
    case Answered(result) =>
      if "surfaces" in result && result["surfaces"].Listing? then |Values(out)| == |c.surfaces| || out.Raised?
      else out.Ended? && out.status == Blocked && out.values == [] && RecordedAs(c, ctx.environment, CanaryCollection, out.world.trials, Blocked)
  }

  function Values(out: Outcome): seq<Document> {
    if out.Raised? then [] else out.values
  }

  /** A collection without a verdict is asked for once; only a refusal or an answer without a list is a verdict of its own. */
  lemma {:induction false} CollectionAnswers(c: Config, ctx: Context, w: World, backend: Backend, answer: Answer)
    requires Valid(c) && Sticky(c, ctx.environment, CanaryCollection, w.trials).None? && answer == backend(w.calls + [CanaryCollection])
    ensures Collect(c, ctx, w, backend).world.calls == w.calls + [CanaryCollection]
    ensures CollectionDecided(c, ctx, answer, Collect(c, ctx, w, backend))
  {
    AskedIsOpen(c, ctx, CanaryCollection, w);
    match answer
    case Escapes =>
    case Infrastructure(reason) => ClosedIsRecorded(c, ctx, CanaryCollection, w, InfraFailed, Reason(reason));
    case Refused(reason) => ClosedIsRecorded(c, ctx, CanaryCollection, w, Blocked, Reason(reason));
    case Answered(result) =>
      if Get(result, "surfaces").Listing? {
        OrderedIsIndexed(c, Get(result, "surfaces").items, |c.surfaces|);
      } else {
        ClosedIsRecorded(c, ctx, CanaryCollection, w, Blocked, result);
      }
  }

  // ---------------------------------------------------------------------------------------------
  // What a pass shows.

  /** A number that is zero, or the flag false, which equals it. */
  ghost predicate ShowsNoHit(item: Document) {
    && "hit_count" in item && (item["hit_count"] == Flag(false) || exists e :: item["hit_count"] == Number(0, e))
    && "artifact_ref" in item && item["artifact_ref"] !in {Null, Flag(false), Text(""), Listing([]), Object(map[])}
    && !(item["artifact_ref"].Number? && item["artifact_ref"].mantissa == 0)
    && "canary_digest" in item && item["canary_digest"] !in {Null, Flag(false), Text(""), Listing([]), Object(map[])}
    && !(item["canary_digest"].Number? && item["canary_digest"].mantissa == 0)
  }

  lemma {:induction false} CleanShowsNoHit(item: Document)
    ensures Clean(item) <==> ShowsNoHit(item)
  {
    if Clean(item) && item["hit_count"].Number? {
      assert item["hit_count"] == Number(0, item["hit_count"].exponent);
    }
  }

  /** A passing canary matrix names every registered surface in order, each with no hit, evidence and digest. */
  lemma {:induction false} CanaryPassShows(c: Config, ctx: Context, w: World, backend: Backend, out: Outcome)
    requires Valid(c) && c.surfaces != [] && Coded(c, w.trials) && out == CanaryRun(c, ctx, w, backend) && out.Ended? && out.status == Pass
    ensures |out.values| == |c.surfaces|
    ensures forall i | 0 <= i < |c.surfaces| :: Get(out.values[i], "surface") == Text(c.surfaces[i]) && ShowsNoHit(out.values[i])
  {
    CanaryPassIsValid(c, ctx, w, backend);
    forall i | 0 <= i < |c.surfaces| ensures ShowsNoHit(out.values[i]) {
      CleanShowsNoHit(out.values[i]);
    }
  }

  /** A listed surface that shows a hit, or lacks evidence, is recorded as a metric failure, and so is the matrix. */
  lemma {:induction false} HitFailsTheMatrix(c: Config, ctx: Context, w: World, backend: Backend, result: Document, i: nat)
    requires Valid(c) && Sticky(c, ctx.environment, CanaryCollection, w.trials).None? && i < |c.surfaces|
    requires backend(w.calls + [CanaryCollection]) == Answered(result) && Get(result, "surfaces").Listing?
    requires !ShowsNoHit(SurfaceItem(c, Get(result, "surfaces").items, i))
    ensures Collect(c, ctx, w, backend).Ended? && Collect(c, ctx, w, backend).status == MetricFail
  {
    CleanShowsNoHit(SurfaceItem(c, Get(result, "surfaces").items, i));
    UncleanItem(c, Get(result, "surfaces").items, i, |c.surfaces|);
  }

  lemma {:induction false} UncleanItem(c: Config, items: seq<Value>, i: nat, n: nat)
    requires i < n <= |c.surfaces| && !Clean(SurfaceItem(c, items, i))
    ensures !AllClean(c, items, n)
    decreases n
  {
    if i < n - 1 {
      UncleanItem(c, items, i, n - 1);
    }
  }

  /** The item a surface is recorded with is the last one listed under its name, or a failing one if there is none. */
  lemma {:induction false} SurfaceItemIsLastListed(c: Config, items: seq<Value>, i: nat, k: nat)
    requires i < |c.surfaces| && k < |items| && items[k].Object? && Get(items[k].fields, "surface") == Text(c.surfaces[i])
    requires forall l | k < l < |items| :: !(items[l].Object? && Get(items[l].fields, "surface") == Text(c.surfaces[i]))
    ensures SurfaceItem(c, items, i) == items[k].fields
  {
    LastListed(items, |items|, Text(c.surfaces[i]), k);
  }

  lemma {:induction false} LastListed(items: seq<Value>, n: nat, surface: Value, k: nat)
    requires k < n <= |items| && items[k].Object? && Get(items[k].fields, "surface") == surface
    requires forall l | k < l < |items| :: !(items[l].Object? && Get(items[l].fields, "surface") == surface)
    ensures LastNamed(items, n, surface) == Some(items[k].fields)
    decreases n
  {
    if k < n - 1 {
      LastListed(items, n - 1, surface, k);
    }
  }

  lemma {:induction false} UnlistedSurfaceFails(c: Config, items: seq<Value>, i: nat)
    requires i < |c.surfaces|
    requires forall l | 0 <= l < |items| :: !(items[l].Object? && Get(items[l].fields, "surface") == Text(c.surfaces[i]))
    ensures !ShowsNoHit(SurfaceItem(c, items, i))
  {
    NoneListed(items, |items|, Text(c.surfaces[i]));
  }

  lemma {:induction false} NoneListed(items: seq<Value>, n: nat, surface: Value)
    requires n <= |items| && forall l | 0 <= l < |items| :: !(items[l].Object? && Get(items[l].fields, "surface") == surface)
    ensures LastNamed(items, n, surface).None?
    decreases n
  {
    if n > 0 {
      NoneListed(items, n - 1, surface);
    }
  }

  /** The list holds one object for each registered surface, in order, and nothing else. */
  ghost predicate ListsAll(c: Config, items: seq<Value>) {
    && |items| == |c.surfaces|
    && forall i | 0 <= i < |items| :: items[i].Object? && Get(items[i].fields, "surface") == Text(c.surfaces[i])
  }

  lemma {:induction false} NamedGrows(items: seq<Value>, n: nat)
    requires n <= |items|
    ensures |Named(items, n)| <= n
    ensures forall s :: s in Named(items, n) ==> exists l | 0 <= l < n :: items[l].Object? && Get(items[l].fields, "surface") == s
    ensures |Named(items, n)| == n ==> forall l | 0 <= l < n :: items[l].Object? && Get(items[l].fields, "surface") == Named(items, n)[l]
    decreases n
  {
    if n > 0 {
      NamedGrows(items, n - 1);
    }
  }

  lemma {:induction false} AllNamed(c: Config, items: seq<Value>, n: nat)
    requires Distinct(c.surfaces) && ListsAll(c, items) && n <= |items|
    ensures Named(items, n) == SurfaceTexts(c)[..n]
    decreases n
  {
    if n > 0 {
      AllNamed(c, items, n - 1);
      var texts := SurfaceTexts(c);
      assert texts[n - 1] !in texts[..n - 1];
      assert texts[..n] == texts[..n - 1] + [texts[n - 1]];
    }
  }

  lemma {:induction false} ListMatchesIff(c: Config, items: seq<Value>)
    requires Distinct(c.surfaces)
    ensures ListMatches(c, items) <==> ListsAll(c, items)
  {
    NamedGrows(items, |items|);
    if ListsAll(c, items) {
      AllNamed(c, items, |items|);
      assert SurfaceTexts(c)[..|items|] == SurfaceTexts(c);
    }
  }

  lemma {:induction false} ListedInOrder(c: Config, items: seq<Value>, i: nat)
    requires Distinct(c.surfaces) && ListsAll(c, items) && i < |c.surfaces|
    ensures SurfaceItem(c, items, i) == items[i].fields
  {
    forall l | i < l < |items| ensures !(items[l].Object? && Get(items[l].fields, "surface") == Text(c.surfaces[i])) {
      assert c.surfaces[i] != c.surfaces[l];
    }
    SurfaceItemIsLastListed(c, items, i, i);
  }

  /** Each surface of a listed collection is on record as its item says. */
  ghost predicate SurfacesRecorded(c: Config, environment: string, items: seq<Value>, trials: Trials) {
    forall i: nat | i < |c.surfaces| ::
      RecordedAs(c, environment, Canary(i), trials, if ShowsNoHit(SurfaceItem(c, items, i)) then Pass else MetricFail)
  }

  lemma {:induction false} CleanIff(c: Config, items: seq<Value>)
    ensures AllClean(c, items, |c.surfaces|) <==> forall i: nat | i < |c.surfaces| :: ShowsNoHit(SurfaceItem(c, items, i))
  {
    OrderedIsIndexed(c, items, |c.surfaces|);
    forall i: nat | i < |c.surfaces| ensures Clean(SurfaceItem(c, items, i)) <==> ShowsNoHit(SurfaceItem(c, items, i)) {
      CleanShowsNoHit(SurfaceItem(c, items, i));
    }
  }

  /** Exactly when a listed collection passes: it lists every surface once, in order, and none shows a hit. */
  lemma {:induction false} CollectionPassesIff(c: Config, ctx: Context, w: World, backend: Backend, result: Document, items: seq<Value>)
    requires Valid(c) && Sticky(c, ctx.environment, CanaryCollection, w.trials).None?
    requires backend(w.calls + [CanaryCollection]) == Answered(result) && Get(result, "surfaces") == Listing(items)
    ensures
      var out := Collect(c, ctx, w, backend);
      && out.Ended?
      && out.status == if ListsAll(c, items) && (forall i: nat | i < |c.surfaces| :: ShowsNoHit(items[i].fields)) then Pass else MetricFail
  {
    ListMatchesIff(c, items);
    CleanIff(c, items);
    OrderedIsValidIff(c, items);
    if ListsAll(c, items) {
      forall i: nat | i < |c.surfaces| ensures SurfaceItem(c, items, i) == items[i].fields {
        ListedInOrder(c, items, i);
      }
    }
  }

  lemma {:induction false} RecordedWithVerdicts(c: Config, ctx: Context, items: seq<Value>, after: Trials)
    requires Valid(c) && ItemsRecorded(c, ctx, items, |c.surfaces|, after)
    ensures SurfacesRecorded(c, ctx.environment, items, after)
  {
    forall i: nat | i < |c.surfaces|
      ensures RecordedAs(c, ctx.environment, Canary(i), after, if ShowsNoHit(SurfaceItem(c, items, i)) then Pass else MetricFail)
    {
      CleanShowsNoHit(SurfaceItem(c, items, i));
    }
  }

  /** Collecting leaves the surfaces' records to the recording loop. */
  lemma {:induction false} CollectedBefore(c: Config, ctx: Context, w: World, result: Document) returns (collected: Trials)
    requires Valid(c) && OwnRunning(c, ctx.environment, w.trials)
    ensures collected == Closed(c, ctx, CanaryCollection, Asked(c, ctx, CanaryCollection, w), Pass, result).trials
    ensures OwnRunning(c, ctx.environment, collected)
  {
    AskedAndClosed(c, ctx, CanaryCollection, w, Pass, result);
    collected := Closed(c, ctx, CanaryCollection, Asked(c, ctx, CanaryCollection, w), Pass, result).trials;
    forall i: nat | i < |c.surfaces| ensures SameTrial(w.trials, collected, c.trial(Canary(i))) {
      assert c.trial(Canary(i)) != c.trial(CanaryCollection);
    }
  }

  lemma {:induction false} CollectRecordsAfter(c: Config, ctx: Context, w: World, backend: Backend, result: Document, items: seq<Value>, collected: Trials)
    requires Sticky(c, ctx.environment, CanaryCollection, w.trials).None?
    requires backend(w.calls + [CanaryCollection]) == Answered(result) && Get(result, "surfaces") == Listing(items)
    requires collected == Closed(c, ctx, CanaryCollection, Asked(c, ctx, CanaryCollection, w), Pass, result).trials
    ensures Collect(c, ctx, w, backend).world.trials == RecordSurfaces(c, ctx, items, |c.surfaces|, collected)
  {
  }

  /** And every registered surface is recorded, listed or not, as its last item says. */
  lemma {:induction false} CollectionRecords(c: Config, ctx: Context, w: World, backend: Backend, result: Document, items: seq<Value>)
    requires Valid(c) && Sticky(c, ctx.environment, CanaryCollection, w.trials).None? && OwnRunning(c, ctx.environment, w.trials)
    requires backend(w.calls + [CanaryCollection]) == Answered(result) && Get(result, "surfaces") == Listing(items)
    ensures SurfacesRecorded(c, ctx.environment, items, Collect(c, ctx, w, backend).world.trials)
  {
    var collected := CollectedBefore(c, ctx, w, result);
    CollectRecordsAfter(c, ctx, w, backend, result, items, collected);
    RecordingShape(c, ctx, items, |c.surfaces|, collected);
    RecordedWithVerdicts(c, ctx, items, RecordSurfaces(c, ctx, items, |c.surfaces|, collected));
  }

  /** A passing access matrix shows, for each contract, the access the contract expects, with evidence. */
  lemma {:induction false} AccessPassShows(c: Config, ctx: Context, w: World, backend: Backend, out: Outcome)
    requires Valid(c) && Coded(c, w.trials) && out == AccessRun(c, ctx, w, backend) && out.Ended? && out.status == Pass
    ensures |out.values| == |c.contracts|
    ensures forall j | 0 <= j < |c.contracts| :: exists i | 0 <= i < |out.values| ::
              && Get(out.values[i], "cell_id") == Text(c.contracts[j].cellId)
              && Get(out.values[i], "actual_allow") == Flag(c.contracts[j].expectedAllow) && Truthy(Get(out.values[i], "artifact_ref"))
  {
    AccessPassIsValid(c, ctx, w, backend);
    forall j: nat | j < |c.contracts|
      ensures exists i | 0 <= i < |out.values| ::
                && Get(out.values[i], "cell_id") == Text(c.contracts[j].cellId)
                && Get(out.values[i], "actual_allow") == Flag(c.contracts[j].expectedAllow) && Truthy(Get(out.values[i], "artifact_ref"))
    {
      var i := LastCellIsThere(out.values, |out.values|, Text(c.contracts[j].cellId));
    }
  }

  lemma {:induction false} LastCellIsThere(cells: seq<Document>, n: nat, id: Value) returns (i: nat)
    requires n <= |cells| && LastCell(cells, n, id).Some?
    ensures i < n && Get(cells[i], "cell_id") == id && LastCell(cells, n, id) == Some(cells[i])
    decreases n
  {
    if Get(cells[n - 1], "cell_id") == id {
      i := n - 1;
    } else {
      i := LastCellIsThere(cells, n - 1, id);
    }
  }
}
