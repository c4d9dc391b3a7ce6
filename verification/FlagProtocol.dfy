/**
 * Fault injection through the flag document: `run_scenario` of `g02_lab.py` and
 * `run_readiness_scenario_v3` of `g03_readiness.py`, against a client and an observer that may
 * fail in any pattern.
 */
module FlagProtocol {
  import opened Prelude

  // ---------------------------------------------------------------------------------------------
  // The flag document.

  datatype FlagValue =
    | Flag(defaultVariant: string, variants: set<string>, rest: string)
    | NotAnObject(text: string)

  /** `flags` is absent when the document's entry is no object. */
  datatype Document = Document(flags: Option<map<string, FlagValue>>, rest: string)

  datatype FaultAdapter = FaultAdapter(flagKey: string, variant: string)

  function MutatedDocument(original: Document, adapter: FaultAdapter): Result<Document> {
    if original.flags.None? || adapter.flagKey !in original.flags.value then Failure
    else
      var flags := original.flags.value;
      var flag := flags[adapter.flagKey];
      if flag.NotAnObject? || adapter.variant !in flag.variants then Failure
      else
        var changed := flags[adapter.flagKey := flag.(defaultVariant := adapter.variant)];
        if (set key | key in changed && changed[key] != flags[key]) != {adapter.flagKey} then Failure
        else Success(original.(flags := Some(changed)))
  }

  /** Two documents differ in the default variant of exactly one flag. */
  ghost predicate DifferInVariantOf(a: Document, b: Document, key: string) {
    && a.rest == b.rest && a.flags.Some? && b.flags.Some?
    && a.flags.value.Keys == b.flags.value.Keys
    && key in a.flags.value && a.flags.value[key].Flag? && b.flags.value[key].Flag?
    && a.flags.value[key].defaultVariant != b.flags.value[key].defaultVariant
    && a.flags.value[key].variants == b.flags.value[key].variants
    && a.flags.value[key].rest == b.flags.value[key].rest
    && forall other | other in a.flags.value && other != key :: a.flags.value[other] == b.flags.value[other]
  }

  /**
   * A mutation succeeds exactly when the flag offers the variant and does not already stand on it,
   * and then it changes the default variant of that one flag and nothing else.
   */
  lemma {:induction false} MutationIsExact(original: Document, adapter: FaultAdapter)
    ensures MutatedDocument(original, adapter).Success? <==>
            && original.flags.Some? && adapter.flagKey in original.flags.value
            && original.flags.value[adapter.flagKey].Flag?
            && adapter.variant in original.flags.value[adapter.flagKey].variants
            && adapter.variant != original.flags.value[adapter.flagKey].defaultVariant
    ensures MutatedDocument(original, adapter).Success? ==>
              var injected := MutatedDocument(original, adapter).value;
              && DifferInVariantOf(original, injected, adapter.flagKey)
              && injected.flags.value[adapter.flagKey].defaultVariant == adapter.variant
  {
    if original.flags.Some? && adapter.flagKey in original.flags.value && original.flags.value[adapter.flagKey].Flag? {
      var flags := original.flags.value;
      var flag := flags[adapter.flagKey];
      var changed := flags[adapter.flagKey := flag.(defaultVariant := adapter.variant)];
      var keys := set key | key in changed && changed[key] != flags[key];
      assert keys == if flag.defaultVariant != adapter.variant then {adapter.flagKey} else {} by {
        assert adapter.flagKey in keys <==> flag.defaultVariant != adapter.variant;
      }
    }
  }

  // ---------------------------------------------------------------------------------------------
  // Client and observer.

  /** `InfrastructureFailure` is a `GovernanceError` of its own kind; two errors of a kind differ by message. */
  datatype Kind = Governance | Infrastructure | Unexpected
  datatype Error = Error(kind: Kind, message: string)

  /** A governance error the protocol raises itself. */
  function Refusal(message: string): Error {
    Error(Governance, message)
  }

  datatype OracleState = Healthy | FaultActive | Unknown

  /** An observation: the state a control observation reports, the recovery fields, and the rest. */
  datatype Observation = Observation(
    state: OracleState,
    ready: Option<bool>,
    journeyHealthy: Option<bool>,
    signalNotWorsening: Option<bool>,
    rest: string)

  function RecoveryState(observations: seq<Observation>): OracleState {
    if |observations| != 2 then Unknown
    else if exists o | o in observations :: o.ready.None? || o.journeyHealthy.None? || o.signalNotWorsening.None? then Unknown
    else if forall o | o in observations :: o.ready == o.journeyHealthy == o.signalNotWorsening == Some(true) then Healthy
    else FaultActive
  }

  datatype Outcome<+T> = Ok(value: T) | Err(error: Error)

  datatype Effect = Stored | Ignored | Garbled(left: Document)

  /** What one write does: an effect on the document, and possibly an exception. */
  datatype WriteFate = WriteFate(effect: Effect, error: Option<Error>)

  datatype Phase = Control | Fault | Recovery

  datatype Event =
    | Wrote(intended: Document, now: Document)
    | Readback(document: Document)
    | Saw(phase: Phase, observation: Observation, document: Document)

  /**
   * What client and observer do on each call: arbitrary functions of the number of calls made, so
   * every failure pattern is covered. The fault oracle is an arbitrary reading of observations.
   */
  datatype Fates = Fates(
    write: nat -> WriteFate,
    read: nat -> Option<Error>,
    observe: nat -> Outcome<Observation>,
    oracle: (string, seq<Observation>) -> OracleState)

  datatype World = World(document: Document, calls: nat, log: seq<Event>)

  /** What a call answers and the world it leaves. */
  datatype Turn<+T> = Turn(out: T, world: World)

  /** The document a write leaves. */
  function Left(effect: Effect, before: Document, intended: Document): Document {
    match effect
    case Stored => intended
    case Ignored => before
    case Garbled(left) => left
  }

  function ReadStep(f: Fates, w: World): Turn<Outcome<Document>> {
    match f.read(w.calls)
    case Some(e) => Turn(Err(e), w.(calls := w.calls + 1))
    case None => Turn(Ok(w.document), World(w.document, w.calls + 1, w.log + [Readback(w.document)]))
  }

  function WriteStep(f: Fates, w: World, d: Document): Turn<Option<Error>> {
    var now := Left(f.write(w.calls).effect, w.document, d);
    Turn(f.write(w.calls).error, World(now, w.calls + 1, w.log + [Wrote(d, now)]))
  }

  function ObserveStep(f: Fates, w: World, phase: Phase): Turn<Outcome<Observation>> {
    match f.observe(w.calls)
    case Err(e) => Turn(Err(e), w.(calls := w.calls + 1))
    case Ok(o) => Turn(Ok(o), World(w.document, w.calls + 1, w.log + [Saw(phase, o, w.document)]))
  }

  /** Two observations in a row; the first exception stops the pair. */
  function PairStep(f: Fates, w: World, phase: Phase): Turn<Outcome<seq<Observation>>> {
    var first := ObserveStep(f, w, phase);
    match first.out
    case Err(e) => Turn(Err(e), first.world)
    case Ok(a) =>
      var second := ObserveStep(f, first.world, phase);
      match second.out
      case Err(e) => Turn(Err(e), second.world)
      case Ok(b) => Turn(Ok([a, b]), second.world)
  }

  // ---------------------------------------------------------------------------------------------
  // The two halves of a trial.

  /** A half of a trial: the error that stopped it, if any, and what was observed before that. */
  datatype Half = Half(error: Option<Error>, seen: seq<Observation>, world: World)

  /** A document is offered to the client, read back, and the system observed twice. */
  function Offer(f: Fates, w: World, d: Document, phase: Phase, mismatch: string): Half {
    var written := WriteStep(f, w, d);
    if written.out.Some? then Half(written.out, [], written.world)
    else
      var read := ReadStep(f, written.world);
      match read.out
      case Err(e) => Half(Some(e), [], read.world)
      case Ok(now) =>
        if now != d then Half(Some(Refusal(mismatch)), [], read.world)
        else
          var pair := PairStep(f, read.world, phase);
          match pair.out
          case Err(e) => Half(Some(e), [], pair.world)
          case Ok(seen) => Half(None, seen, pair.world)
  }

  /** The `try` block. */
  function Injected(f: Fates, w: World, original: Document, mutated: Result<Document>, faultClass: string): Half {
    match mutated
    case Failure => Half(Some(Refusal("mutation")), [], w)
    case Success(injected) =>
      var half := Offer(f, w, injected, Fault, "injection readback mismatch");
      if half.error.None? && f.oracle(faultClass, half.seen) != FaultActive
      then half.(error := Some(Refusal("fault oracle did not reach FAULT_ACTIVE"))) else half
  }

  /** The `finally` block. */
  function Restored(f: Fates, w: World, original: Document): Half {
    var half := Offer(f, w, original, Recovery, "restoration readback mismatch");
    if half.error.None? && RecoveryState(half.seen) != Healthy
    then half.(error := Some(Refusal("recovery oracle did not reach HEALTHY"))) else half
  }

  // ---------------------------------------------------------------------------------------------
  // `run_scenario` and `run_readiness_scenario_v3`.

  datatype ScenarioResult = ScenarioResult(
    original: Document,
    restored: Document,
    faults: seq<Observation>,
    recovery: seq<Observation>)

  /** A quarantine is raised as a governance error that names the cleanup error. */
  datatype ScenarioOutcome =
    | Completed(result: ScenarioResult)
    | Failed(error: Error)
    | Quarantined(cleanup: Error)

  /** The healthy precondition, as `run_scenario` proves it. */
  function Precondition(f: Fates, w: World, precondition: Option<seq<Observation>>): Turn<Option<Error>> {
    match precondition
    case Some(recovery) => Turn(if RecoveryState(recovery) == Healthy then None else Some(Refusal("precondition")), w)
    case None =>
      var control := ObserveStep(f, w, Control);
      match control.out
      case Err(e) => Turn(Some(e), control.world)
      case Ok(o) => Turn(if o.state == Healthy then None else Some(Refusal("precondition")), control.world)
  }

  /** What precedes the injection: the document is read and the precondition proven. */
  function Started(f: Fates, w: World, precondition: Option<seq<Observation>>): Turn<Outcome<Document>> {
    var read := ReadStep(f, w);
    if read.out.Err? then read
    else
      var proven := Precondition(f, read.world, precondition);
      match proven.out
      case Some(e) => Turn(Err(e), proven.world)
      case None => Turn(read.out, proven.world)
  }

  /** What a trial comes to after its two halves. */
  function Concluded(f: Fates, original: Document, injected: Half, restored: Half): Turn<ScenarioOutcome> {
    if restored.error.Some? then Turn(Quarantined(restored.error.value), restored.world)
    else if injected.error.Some? then Turn(Failed(injected.error.value), restored.world)
    else
      var final := ReadStep(f, restored.world);
      match final.out
      case Err(e) => Turn(Failed(e), final.world)
      case Ok(d) => Turn(Completed(ScenarioResult(original, d, injected.seen, restored.seen)), final.world)
  }

  /** The `try`, its `finally`, and what follows. */
  function Tried(f: Fates, w: World, original: Document, mutated: Result<Document>, faultClass: string): Turn<ScenarioOutcome> {
    var injected := Injected(f, w, original, mutated, faultClass);
    Concluded(f, original, injected, Restored(f, injected.world, original))
  }

  function ScenarioRun(f: Fates, w: World, adapters: map<string, FaultAdapter>, faultClass: string,
                       precondition: Option<seq<Observation>>): Turn<ScenarioOutcome>
  {
    if faultClass !in adapters then Turn(Failed(Refusal("unknown fault action")), w)
    else
      var started := Started(f, w, precondition);
      match started.out
      case Err(e) => Turn(Failed(e), started.world)
      case Ok(original) => Tried(f, started.world, original, MutatedDocument(original, adapters[faultClass]), faultClass)
  }

  const HEALTHY_WINDOW_COUNT := 5

  /** What v3 raises: an error as it is, one that names two errors, or one that wraps a cleanup error. */
  datatype RaisedV3 =
    | Plain(error: Error)
    | Both(primary: Error, cleanup: Error)
    | CleanupBlocked(cleanup: Error)

  /** The errors attached to what v3 raises after an injection was attempted. */
  datatype Diagnostics = Diagnostics(primary: Option<Error>, cleanup: Option<Error>)

  datatype OutcomeV3 =
    | CompletedV3(result: ScenarioResult)
    | RaisedError(raised: RaisedV3, diagnostics: Option<Diagnostics>)

  function RaiseV3(primary: Option<Error>, cleanup: Option<Error>): RaisedV3
    requires primary.Some? || cleanup.Some?
  {
    if primary.Some? then
      if cleanup.Some? && primary.value.kind != Infrastructure then Both(primary.value, cleanup.value) else Plain(primary.value)
    else if cleanup.value.kind == Infrastructure then Plain(cleanup.value)
    else CleanupBlocked(cleanup.value)
  }

  /** The first `n` healthy windows. */
  function Windows(f: Fates, w: World, n: nat): Turn<Outcome<seq<Observation>>> {
    if n == 0 then Turn(Ok([]), w)
    else
      var before := Windows(f, w, n - 1);
      match before.out
      case Err(e) => before
      case Ok(windows) =>
        var next := ObserveStep(f, before.world, Control);
        match next.out
        case Err(e) => Turn(Err(e), next.world)
        case Ok(o) => Turn(Ok(windows + [o]), next.world)
  }

  /** What precedes the injection in v3: the document, the control observation, the healthy windows. */
  function StartedV3(f: Fates, w: World, count: nat): Turn<Outcome<(Document, seq<Observation>)>> {
    var started := Started(f, w, None);
    match started.out
    case Err(e) => Turn(Err(e), started.world)
    case Ok(original) =>
      var windows := Windows(f, started.world, count);
      match windows.out
      case Err(e) => Turn(Err(e), windows.world)
      case Ok(seen) => Turn(Ok((original, seen)), windows.world)
  }

  /** Building the observation packet from the healthy and the fault windows can fail. */
  type PacketBuilder = (seq<Observation>, seq<Observation>) -> Option<Error>

  /** What a v3 trial comes to after its two halves. */
  function ConcludedV3(f: Fates, original: Document, unbuilt: Option<Error>, injected: Half, restored: Half): Turn<OutcomeV3> {
    if injected.error.Some? || restored.error.Some? then
      Turn(RaisedError(RaiseV3(injected.error, restored.error), Some(Diagnostics(injected.error, restored.error))), restored.world)
    else if unbuilt.Some? then Turn(RaisedError(Plain(unbuilt.value), None), restored.world)
    else
      var final := ReadStep(f, restored.world);
      match final.out
      case Err(e) => Turn(RaisedError(Plain(e), None), final.world)
      case Ok(d) => Turn(CompletedV3(ScenarioResult(original, d, injected.seen, restored.seen)), final.world)
  }

  function TriedV3(f: Fates, w: World, original: Document, windows: seq<Observation>, mutated: Result<Document>, faultClass: string,
                   packet: PacketBuilder): Turn<OutcomeV3>
  {
    var injected := Injected(f, w, original, mutated, faultClass);
    ConcludedV3(f, original, packet(windows, injected.seen), injected, Restored(f, injected.world, original))
  }

  function ReadinessRun(f: Fates, w: World, adapters: map<string, FaultAdapter>, faultClass: string,
                        count: nat, packet: PacketBuilder): Turn<OutcomeV3>
  {
    if faultClass !in adapters then Turn(RaisedError(Plain(Refusal("unknown fault action")), None), w)
    else
      ReadinessFrom(f, StartedV3(f, w, count), adapters[faultClass], faultClass, packet)
  }

  function ReadinessFrom(f: Fates, started: Turn<Outcome<(Document, seq<Observation>)>>, adapter: FaultAdapter, faultClass: string,
                         packet: PacketBuilder): Turn<OutcomeV3>
  {
    match started.out
    case Err(e) => Turn(RaisedError(Plain(e), None), started.world)
    case Ok((original, windows)) =>
      TriedV3(f, started.world, original, windows, MutatedDocument(original, adapter), faultClass, packet)
  }

  // ---------------------------------------------------------------------------------------------
  // The system under test, and the trials on it.

  /** The system as its client and observer see it; only writes change the document. */
  class System {
    var document: Document
    var calls: nat
    ghost var log: seq<Event>
    const fates: Fates

    constructor (document: Document, fates: Fates)
      ensures Now() == World(document, 0, []) && this.fates == fates
    {
      this.document, calls, log := document, 0, [];
      this.fates := fates;
    }

    ghost function Now(): World
      reads this
    {
      World(document, calls, log)
    }

    method Read() returns (r: Outcome<Document>)
      modifies this
      ensures Turn(r, Now()) == ReadStep(fates, old(Now()))
    {
      var fate := fates.read(calls);
      calls := calls + 1;
      if fate.Some? {
        return Err(fate.value);
      }
      log := log + [Readback(document)];
      return Ok(document);
    }

    method Write(d: Document) returns (error: Option<Error>)
      modifies this
      ensures Turn(error, Now()) == WriteStep(fates, old(Now()), d)
    {
      var fate := fates.write(calls);
      calls := calls + 1;
      document := Left(fate.effect, document, d);
      log := log + [Wrote(d, document)];
      error := fate.error;
    }

    method Observe(phase: Phase) returns (r: Outcome<Observation>)
      modifies this
      ensures Turn(r, Now()) == ObserveStep(fates, old(Now()), phase)
    {
      r := fates.observe(calls);
      calls := calls + 1;
      if r.Ok? {
        log := log + [Saw(phase, r.value, document)];
      }
    }

    method ObserveTwice(phase: Phase) returns (r: Outcome<seq<Observation>>)
      modifies this
      ensures Turn(r, Now()) == PairStep(fates, old(Now()), phase)
    {
      var first := Observe(phase);
      if first.Err? {
        return Err(first.error);
      }
      var second := Observe(phase);
      if second.Err? {
        return Err(second.error);
      }
      r := Ok([first.value, second.value]);
    }

    method OfferDocument(d: Document, phase: Phase, mismatch: string) returns (error: Option<Error>, seen: seq<Observation>)
      modifies this
      ensures Half(error, seen, Now()) == Offer(fates, old(Now()), d, phase, mismatch)
    {
      seen := [];
      error := Write(d);
      if error.Some? {
        return;
      }
      var readback := Read();
      if readback.Err? {
        return Some(readback.error), seen;
      }
      if readback.value != d {
        return Some(Refusal(mismatch)), seen;
      }
      var pair := ObserveTwice(phase);
      if pair.Err? {
        return Some(pair.error), seen;
      }
      seen := pair.value;
    }

    method Inject(original: Document, adapter: FaultAdapter, faultClass: string) returns (primary: Option<Error>, faults: seq<Observation>)
      modifies this
      ensures Half(primary, faults, Now()) == Injected(fates, old(Now()), original, MutatedDocument(original, adapter), faultClass)
    {
      var mutated := MutatedDocument(original, adapter);
      if mutated.Failure? {
        return Some(Refusal("mutation")), [];
      }
      primary, faults := OfferDocument(mutated.value, Fault, "injection readback mismatch");
      if primary.None? && fates.oracle(faultClass, faults) != FaultActive {
        primary := Some(Refusal("fault oracle did not reach FAULT_ACTIVE"));
      }
    }

    method Restore(original: Document) returns (cleanup: Option<Error>, recovery: seq<Observation>)
      modifies this
      ensures Half(cleanup, recovery, Now()) == Restored(fates, old(Now()), original)
    {
      cleanup, recovery := OfferDocument(original, Recovery, "restoration readback mismatch");
      if cleanup.None? && RecoveryState(recovery) != Healthy {
        cleanup := Some(Refusal("recovery oracle did not reach HEALTHY"));
      }
    }

    method ProvePrecondition(precondition: Option<seq<Observation>>) returns (error: Option<Error>)
      modifies this
      ensures Turn(error, Now()) == Precondition(fates, old(Now()), precondition)
    {
      if precondition.Some? {
        return if RecoveryState(precondition.value) == Healthy then None else Some(Refusal("precondition"));
      }
      var control := Observe(Control);
      if control.Err? {
        return Some(control.error);
      }
      return if control.value.state == Healthy then None else Some(Refusal("precondition"));
    }

    method Start(precondition: Option<seq<Observation>>) returns (r: Outcome<Document>)
      modifies this
      ensures Turn(r, Now()) == Started(fates, old(Now()), precondition)
    {
      r := Read();
      if r.Ok? {
        var unproven := ProvePrecondition(precondition);
        if unproven.Some? {
          r := Err(unproven.value);
        }
      }
    }

    method CollectHealthyWindows() returns (r: Outcome<seq<Observation>>)
      modifies this
      ensures Turn(r, Now()) == Windows(fates, old(Now()), HEALTHY_WINDOW_COUNT)
    {
      ghost var start := Now();
      r := Ok([]);
      var i := 0;
      while r.Ok? && i < HEALTHY_WINDOW_COUNT
        invariant i <= HEALTHY_WINDOW_COUNT && Turn(r, Now()) == Windows(fates, start, i)
        decreases HEALTHY_WINDOW_COUNT - i
      {
        var window := Observe(Control);
        r := if window.Err? then Err(window.error) else Ok(r.value + [window.value]);
        i := i + 1;
      }
      WindowsStop(fates, start, i, HEALTHY_WINDOW_COUNT);
    }

    /** One trial: its outcome, the document and every event are those of the run function. */
    method RunScenario(adapters: map<string, FaultAdapter>, faultClass: string, precondition: Option<seq<Observation>>)
      returns (r: ScenarioOutcome)
      modifies this
      ensures Turn(r, Now()) == ScenarioRun(fates, old(Now()), adapters, faultClass, precondition)
    {
      if faultClass !in adapters {
        return Failed(Refusal("unknown fault action"));
      }
      var started := Start(precondition);
      if started.Err? {
        return Failed(started.error);
      }
      var original := started.value;
      var primary, faults := Inject(original, adapters[faultClass], faultClass);
      var cleanup, recovery := Restore(original);
      if cleanup.Some? {
        return Quarantined(cleanup.value);
      }
      if primary.Some? {
        return Failed(primary.value);
      }
      var final := Read();
      if final.Err? {
        return Failed(final.error);
      }
      r := Completed(ScenarioResult(original, final.value, faults, recovery));
    }

    /** One v3 trial, likewise. */
    method RunReadinessScenarioV3(adapters: map<string, FaultAdapter>, faultClass: string, packet: PacketBuilder)
      returns (r: OutcomeV3)
      modifies this
      ensures Turn(r, Now()) == ReadinessRun(fates, old(Now()), adapters, faultClass, HEALTHY_WINDOW_COUNT, packet)
    {
      if faultClass !in adapters {
        return RaisedError(Plain(Refusal("unknown fault action")), None);
      }
      var started := Start(None);
      if started.Err? {
        return RaisedError(Plain(started.error), None);
      }
      var original := started.value;
      var windows := CollectHealthyWindows();
      if windows.Err? {
        return RaisedError(Plain(windows.error), None);
      }
      var primary, faults := Inject(original, adapters[faultClass], faultClass);
      var cleanup, recovery := Restore(original);
      if primary.Some? || cleanup.Some? {
        return RaisedError(RaiseV3(primary, cleanup), Some(Diagnostics(primary, cleanup)));
      }
      var unbuilt := packet(windows.value, faults);
      if unbuilt.Some? {
        return RaisedError(Plain(unbuilt.value), None);
      }
      var final := Read();
      if final.Err? {
        return RaisedError(Plain(final.error), None);
      }
      r := CompletedV3(ScenarioResult(original, final.value, faults, recovery));
    }
  }

  lemma {:induction false} WindowsStop(f: Fates, w: World, n: nat, count: nat)
    requires n <= count && (n == count || Windows(f, w, n).out.Err?)
    ensures Windows(f, w, count) == Windows(f, w, n)
    decreases count - n
  {
    if n < count {
      WindowsStop(f, w, n + 1, count);
    }
  }

  // ---------------------------------------------------------------------------------------------
  // When each part succeeds, in terms of what client and observer do.

  /** What was added to a log holds no write. */
  ghost predicate OnlyObservations(before: seq<Event>, after: seq<Event>) {
    before <= after && forall i | |before| <= i < |after| :: !after[i].Wrote?
  }

  /** Every write added to a log offered the client one of the given documents. */
  ghost predicate WritesOnly(before: seq<Event>, after: seq<Event>, offered: set<Document>) {
    before <= after && forall i | |before| <= i < |after| && after[i].Wrote? :: after[i].intended in offered
  }

  /** The fields of a recovered system: ready, its journeys healthy, its signals not worsening. */
  predicate Recovered(o: Observation) {
    o.ready == Some(true) && o.journeyHealthy == Some(true) && o.signalNotWorsening == Some(true)
  }

  predicate BothRecovered(observations: seq<Observation>) {
    |observations| == 2 && Recovered(observations[0]) && Recovered(observations[1])
  }

  /** The recovery oracle answers healthy exactly for two observations that both show recovery in every field. */
  lemma {:induction false} RecoveryMeans(observations: seq<Observation>)
    ensures RecoveryState(observations) == Healthy <==> BothRecovered(observations)
  {
    if |observations| == 2 {
      assert observations[0] in observations && observations[1] in observations;
      assert forall o | o in observations :: o == observations[0] || o == observations[1];
    }
  }

  predicate SeesTwice(f: Fates, calls: nat) {
    f.observe(calls).Ok? && f.observe(calls + 1).Ok?
  }

  function Pair(f: Fates, calls: nat): (pair: seq<Observation>)
    requires SeesTwice(f, calls)
  {
    [f.observe(calls).value, f.observe(calls + 1).value]
  }

  /** A write leaves the document offered: it is stored, or stands there already, or is garbled into it. */
  predicate Leaves(effect: Effect, document: Document, d: Document) {
    effect == Stored || (effect == Ignored && document == d) || effect == Garbled(d)
  }

  /** The write raises nothing and leaves the document offered; the readback and two observations succeed. */
  predicate OfferHolds(f: Fates, document: Document, calls: nat, d: Document) {
    && f.write(calls).error.None? && Leaves(f.write(calls).effect, document, d)
    && f.read(calls + 1).None? && SeesTwice(f, calls + 2)
  }

  predicate InjectionHolds(f: Fates, calls: nat, original: Document, mutated: Result<Document>, faultClass: string) {
    && mutated.Success?
    && OfferHolds(f, original, calls, mutated.value)
    && f.oracle(faultClass, Pair(f, calls + 2)) == FaultActive
  }

  predicate RestorationHolds(f: Fates, document: Document, calls: nat, original: Document) {
    OfferHolds(f, document, calls, original) && BothRecovered(Pair(f, calls + 2))
  }

  /** The events of an offer that went well. */
  ghost function OfferTrace(d: Document, phase: Phase, seen: seq<Observation>): seq<Event> {
    [Wrote(d, d), Readback(d)] + seq(|seen|, i requires 0 <= i < |seen| => Saw(phase, seen[i], d))
  }

  /** The events of a trial that went well, from the injecting write on; there is none without a mutation. */
  ghost function TrialTrace(original: Document, mutated: Result<Document>, r: ScenarioResult): seq<Event> {
    match mutated
    case Failure => []
    case Success(injected) => OfferTrace(injected, Fault, r.faults) + OfferTrace(original, Recovery, r.recovery)
  }

  lemma {:induction false} OfferIff(f: Fates, w: World, d: Document, phase: Phase, mismatch: string)
    ensures
      var half := Offer(f, w, d, phase, mismatch);
      && (half.error.None? <==> OfferHolds(f, w.document, w.calls, d))
      && (half.error.None? ==>
            && half.seen == Pair(f, w.calls + 2)
            && half.world == World(d, w.calls + 4, w.log + OfferTrace(d, phase, half.seen)))
      && WritesOnly(w.log, half.world.log, {d})
  {
    var written := WriteStep(f, w, d).world;
    var read := ReadStep(f, written).world;
    var pair := PairStep(f, read, phase);
    if pair.out.Ok? {
      assert pair.world.log == read.log + [Saw(phase, pair.out.value[0], read.document), Saw(phase, pair.out.value[1], read.document)];
    }
  }

  lemma {:induction false} InjectedIff(f: Fates, w: World, mutated: Result<Document>, faultClass: string)
    ensures
      var half := Injected(f, w, w.document, mutated, faultClass);
      && (half.error.None? <==> InjectionHolds(f, w.calls, w.document, mutated, faultClass))
      && (half.error.None? ==>
            var injected := mutated.value;
            && half.seen == Pair(f, w.calls + 2)
            && half.world == World(injected, w.calls + 4, w.log + OfferTrace(injected, Fault, half.seen)))
      && WritesOnly(w.log, half.world.log, Offered(w.document, mutated))
  {
    if mutated.Success? {
      OfferIff(f, w, mutated.value, Fault, "injection readback mismatch");
    }
  }

  lemma {:induction false} RestoredIff(f: Fates, w: World, original: Document)
    ensures
      var half := Restored(f, w, original);
      && (half.error.None? <==> RestorationHolds(f, w.document, w.calls, original))
      && (half.error.None? ==>
            && half.seen == Pair(f, w.calls + 2)
            && half.world == World(original, w.calls + 4, w.log + OfferTrace(original, Recovery, half.seen)))
      && WritesOnly(w.log, half.world.log, {original})
  {
    OfferIff(f, w, original, Recovery, "restoration readback mismatch");
    RecoveryMeans(Offer(f, w, original, Recovery, "restoration readback mismatch").seen);
  }

  /** The documents a trial may ever offer the client: the mutation of one flag, and the original. */
  ghost function Offered(original: Document, mutated: Result<Document>): set<Document> {
    if mutated.Success? then {original, mutated.value} else {original}
  }

  lemma ObservedThenWritten(a: seq<Event>, b: seq<Event>, c: seq<Event>, offered: set<Document>)
    requires OnlyObservations(a, b) && WritesOnly(b, c, offered)
    ensures WritesOnly(a, c, offered)
  {
  }

  lemma WritesJoin(a: seq<Event>, b: seq<Event>, c: seq<Event>, first: set<Document>, second: set<Document>)
    requires WritesOnly(a, b, first) && WritesOnly(b, c, second)
    ensures WritesOnly(a, c, first + second)
  {
  }

  /** The call and the precondition proof of `run_scenario`, if any call is needed for it. */
  predicate StartHolds(f: Fates, calls: nat, precondition: Option<seq<Observation>>) {
    && f.read(calls).None?
    && match precondition
       case Some(recovery) => BothRecovered(recovery)
       case None => f.observe(calls + 1).Ok? && f.observe(calls + 1).value.state == Healthy
  }

  function StartCalls(precondition: Option<seq<Observation>>): nat {
    if precondition.Some? then 1 else 2
  }

  /** What precedes the injection: the document was read and the healthy precondition proven. */
  ghost predicate ProvenHealthy(prelude: seq<Event>, original: Document, precondition: Option<seq<Observation>>) {
    match precondition
    case Some(recovery) => prelude == [Readback(original)] && BothRecovered(recovery)
    case None =>
      |prelude| == 2 && prelude[0] == Readback(original)
      && prelude[1].Saw? && prelude[1].phase == Control && prelude[1].document == original
      && prelude[1].observation.state == Healthy
  }

  lemma {:induction false} StartedIff(f: Fates, w: World, precondition: Option<seq<Observation>>)
    ensures
      var started := Started(f, w, precondition);
      && (started.out.Ok? <==> StartHolds(f, w.calls, precondition))
      && started.world.document == w.document
      && OnlyObservations(w.log, started.world.log)
      && (started.out.Ok? ==>
            && started.out.value == w.document && started.world.calls == w.calls + StartCalls(precondition)
            && ProvenHealthy(started.world.log[|w.log|..], w.document, precondition))
  {
    if precondition.Some? {
      RecoveryMeans(precondition.value);
    }
  }

  /** Injection and restoration hold, one after the other. */
  predicate TrialHolds(f: Fates, calls: nat, original: Document, mutated: Result<Document>, faultClass: string) {
    && InjectionHolds(f, calls, original, mutated, faultClass)
    && RestorationHolds(f, mutated.value, calls + 4, original)
  }

  /** What such a trial reports, if it holds. */
  function TrialReport(f: Fates, calls: nat, original: Document, mutated: Result<Document>, faultClass: string): Option<ScenarioResult> {
    if TrialHolds(f, calls, original, mutated, faultClass)
    then Some(ScenarioResult(original, original, Pair(f, calls + 2), Pair(f, calls + 6))) else None
  }

  /** The `try` and its `finally`: both go well exactly when the trial holds, and then these are their worlds. */
  lemma {:induction false} HalvesIff(f: Fates, w: World, mutated: Result<Document>, faultClass: string)
    ensures
      var injected := Injected(f, w, w.document, mutated, faultClass);
      var restored := Restored(f, injected.world, w.document);
      var report := TrialReport(f, w.calls, w.document, mutated, faultClass);
      && (injected.error.None? && restored.error.None? <==> report.Some?)
      && (report.Some? ==>
            && report.value == ScenarioResult(w.document, w.document, injected.seen, restored.seen)
            && restored.world == World(w.document, w.calls + 8, w.log + TrialTrace(w.document, mutated, report.value)))
  {
    InjectedIff(f, w, mutated, faultClass);
    RestoredIff(f, Injected(f, w, w.document, mutated, faultClass).world, w.document);
  }

  /** Whatever happens, only the two documents are offered, and a restoration without error restores. */
  lemma {:induction false} HalvesKeep(f: Fates, w: World, mutated: Result<Document>, faultClass: string)
    ensures
      var restored := Restored(f, Injected(f, w, w.document, mutated, faultClass).world, w.document);
      && (restored.error.None? ==> restored.world.document == w.document)
      && WritesOnly(w.log, restored.world.log, Offered(w.document, mutated))
  {
    var injected := Injected(f, w, w.document, mutated, faultClass);
    InjectedIff(f, w, mutated, faultClass);
    RestoredIff(f, injected.world, w.document);
    WritesJoin(w.log, injected.world.log, Restored(f, injected.world, w.document).world.log, Offered(w.document, mutated), {w.document});
    assert Offered(w.document, mutated) + {w.document} == Offered(w.document, mutated);
  }

  // ---------------------------------------------------------------------------------------------
  // What a trial of `run_scenario` promises.

  /** The injection was attempted, and this is where it left the world. */
  ghost predicate Attempted(f: Fates, w: World, adapters: map<string, FaultAdapter>, faultClass: string, precondition: Option<seq<Observation>>) {
    faultClass in adapters && StartHolds(f, w.calls, precondition)
  }

  ghost function AfterInjection(f: Fates, w: World, mutated: Result<Document>, faultClass: string, precondition: Option<seq<Observation>>): World {
    Injected(f, Started(f, w, precondition).world, w.document, mutated, faultClass).world
  }

  /** What client and observer make a trial report: start, injection, restoration and the last read all hold. */
  function ScenarioReport(f: Fates, calls: nat, document: Document, adapters: map<string, FaultAdapter>, faultClass: string,
                          precondition: Option<seq<Observation>>): Option<ScenarioResult>
  {
    var start := calls + StartCalls(precondition);
    if faultClass in adapters && StartHolds(f, calls, precondition) && f.read(start + 8).None?
    then TrialReport(f, start, document, MutatedDocument(document, adapters[faultClass]), faultClass) else None
  }

  lemma {:induction false} TriedIff(f: Fates, w: World, mutated: Result<Document>, faultClass: string)
    ensures
      var tried := Tried(f, w, w.document, mutated, faultClass);
      var report := TrialReport(f, w.calls, w.document, mutated, faultClass);
      && (tried.out.Completed? <==> report.Some? && f.read(w.calls + 8).None?)
      && (tried.out.Completed? ==>
            && tried.out.result == report.value
            && tried.world.log == w.log + TrialTrace(w.document, mutated, report.value) + [Readback(w.document)])
  {
    HalvesIff(f, w, mutated, faultClass);
  }

  lemma {:induction false} TriedIsSafe(f: Fates, w: World, mutated: Result<Document>, faultClass: string)
    ensures
      var tried := Tried(f, w, w.document, mutated, faultClass);
      && (!tried.out.Quarantined? ==> tried.world.document == w.document)
      && WritesOnly(w.log, tried.world.log, Offered(w.document, mutated))
  {
    HalvesKeep(f, w, mutated, faultClass);
  }

  /** What a trial that starts here reports, if it holds and the last read does. */
  function ReportAfterTrial(f: Fates, w: World, mutated: Result<Document>, faultClass: string): Option<ScenarioResult> {
    if f.read(w.calls + 8).None? then TrialReport(f, w.calls, w.document, mutated, faultClass) else None
  }

  lemma {:induction false} TriedReports(f: Fates, w: World, mutated: Result<Document>, faultClass: string,
                                        run: Turn<ScenarioOutcome>, report: Option<ScenarioResult>)
    requires run == Tried(f, w, w.document, mutated, faultClass) && report == ReportAfterTrial(f, w, mutated, faultClass)
    ensures (run.out.Completed? <==> report.Some?) && (run.out.Completed? ==> run.out.result == report.value)
  {
    TriedIff(f, w, mutated, faultClass);
  }

  lemma {:induction false} ScenarioRefused(f: Fates, w: World, adapters: map<string, FaultAdapter>, faultClass: string, precondition: Option<seq<Observation>>)
    requires !Attempted(f, w, adapters, faultClass, precondition)
    ensures ScenarioRun(f, w, adapters, faultClass, precondition).out.Failed?
    ensures ScenarioReport(f, w.calls, w.document, adapters, faultClass, precondition).None?
  {
    StartedIff(f, w, precondition);
  }

  /** An attempted trial goes on from where its start has left it. */
  lemma {:induction false} ScenarioGoesOn(f: Fates, w: World, adapters: map<string, FaultAdapter>, faultClass: string, precondition: Option<seq<Observation>>)
    returns (started: World)
    requires Attempted(f, w, adapters, faultClass, precondition)
    ensures started.document == w.document && started.calls == w.calls + StartCalls(precondition)
    ensures ScenarioRun(f, w, adapters, faultClass, precondition) ==
            Tried(f, started, started.document, MutatedDocument(started.document, adapters[faultClass]), faultClass)
  {
    started := Started(f, w, precondition).world;
    StartedIff(f, w, precondition);
  }

  lemma {:induction false} ReportGoesOn(f: Fates, w: World, adapters: map<string, FaultAdapter>, faultClass: string, precondition: Option<seq<Observation>>,
                                        started: World)
    requires Attempted(f, w, adapters, faultClass, precondition)
    requires started.document == w.document && started.calls == w.calls + StartCalls(precondition)
    ensures ScenarioReport(f, w.calls, w.document, adapters, faultClass, precondition) ==
            ReportAfterTrial(f, started, MutatedDocument(started.document, adapters[faultClass]), faultClass)
  {
  }

  lemma {:induction false} AttemptedScenarioIff(f: Fates, w: World, adapters: map<string, FaultAdapter>, faultClass: string,
                                                precondition: Option<seq<Observation>>, run: Turn<ScenarioOutcome>, report: Option<ScenarioResult>)
    requires Attempted(f, w, adapters, faultClass, precondition)
    requires run == ScenarioRun(f, w, adapters, faultClass, precondition)
    requires report == ScenarioReport(f, w.calls, w.document, adapters, faultClass, precondition)
    ensures (run.out.Completed? <==> report.Some?) && (run.out.Completed? ==> run.out.result == report.value)
  {
    var started := ScenarioGoesOn(f, w, adapters, faultClass, precondition);
    ReportGoesOn(f, w, adapters, faultClass, precondition, started);
    TriedReports(f, started, MutatedDocument(started.document, adapters[faultClass]), faultClass, run, report);
  }

  /** A trial completes exactly when client and observer let it, and then reports what was observed. */
  lemma {:induction false} ScenarioCompletesIff(f: Fates, w: World, adapters: map<string, FaultAdapter>, faultClass: string, precondition: Option<seq<Observation>>)
    ensures
      var out := ScenarioRun(f, w, adapters, faultClass, precondition).out;
      var report := ScenarioReport(f, w.calls, w.document, adapters, faultClass, precondition);
      (out.Completed? <==> report.Some?) && (out.Completed? ==> out.result == report.value)
  {
    if !Attempted(f, w, adapters, faultClass, precondition) {
      ScenarioRefused(f, w, adapters, faultClass, precondition);
    } else {
      AttemptedScenarioIff(f, w, adapters, faultClass, precondition, ScenarioRun(f, w, adapters, faultClass, precondition),
                           ScenarioReport(f, w.calls, w.document, adapters, faultClass, precondition));
    }
  }

  /**
   * It is quarantined exactly when an injection was attempted and the restoration after it does not
   * hold, whatever became of the injection.
   */
  lemma {:induction false} QuarantinedIff(f: Fates, w: World, adapters: map<string, FaultAdapter>, faultClass: string, precondition: Option<seq<Observation>>)
    ensures ScenarioRun(f, w, adapters, faultClass, precondition).out.Quarantined? <==>
            && Attempted(f, w, adapters, faultClass, precondition)
            && var after := AfterInjection(f, w, MutatedDocument(w.document, adapters[faultClass]), faultClass, precondition);
               !RestorationHolds(f, after.document, after.calls, w.document)
  {
    StartedIff(f, w, precondition);
    if Attempted(f, w, adapters, faultClass, precondition) {
      RestoredIff(f, AfterInjection(f, w, MutatedDocument(w.document, adapters[faultClass]), faultClass, precondition), w.document);
    }
  }

  /**
   * Under every failure pattern: without a quarantine the document is the original, no document but
   * the original and its one-flag mutation is ever offered, and an unproven precondition writes nothing.
   */
  lemma {:induction false} ScenarioIsSafe(f: Fates, w: World, adapters: map<string, FaultAdapter>, faultClass: string, precondition: Option<seq<Observation>>)
    ensures
      var run := ScenarioRun(f, w, adapters, faultClass, precondition);
      && (!run.out.Quarantined? ==> run.world.document == w.document)
      && WritesOnly(w.log, run.world.log, if faultClass in adapters then Offered(w.document, MutatedDocument(w.document, adapters[faultClass])) else {})
      && (!Attempted(f, w, adapters, faultClass, precondition) ==> run.out.Failed? && OnlyObservations(w.log, run.world.log))
  {
    StartedIff(f, w, precondition);
    if Attempted(f, w, adapters, faultClass, precondition) {
      var started, mutated := Started(f, w, precondition).world, MutatedDocument(w.document, adapters[faultClass]);
      TriedIsSafe(f, started, mutated, faultClass);
      ObservedThenWritten(w.log, started.log, Tried(f, started, w.document, mutated, faultClass).world.log, Offered(w.document, mutated));
    }
  }

  /**
   * A completed trial is a proven precondition, a verified write of the mutation, two fault
   * observations, a verified restoration and two recovery observations, in this order.
   */
  lemma {:induction false} CompletedScenarioEvents(f: Fates, w: World, adapters: map<string, FaultAdapter>, faultClass: string, precondition: Option<seq<Observation>>,
                                r: ScenarioResult, after: World)
    requires ScenarioRun(f, w, adapters, faultClass, precondition) == Turn(Completed(r), after)
    ensures faultClass in adapters
    ensures
      var started := Started(f, w, precondition).world;
      && w.log <= started.log && ProvenHealthy(started.log[|w.log|..], w.document, precondition)
      && after.log == started.log + TrialTrace(w.document, MutatedDocument(w.document, adapters[faultClass]), r) + [Readback(w.document)]
  {
    StartedIff(f, w, precondition);
    TriedIff(f, Started(f, w, precondition).world, MutatedDocument(w.document, adapters[faultClass]), faultClass);
  }

  /** Every field of both observations shows recovery. */
  ghost predicate AllFieldsRecovered(observations: seq<Observation>) {
    |observations| == 2 && forall o | o in observations ::
      o.ready == Some(true) && o.journeyHealthy == Some(true) && o.signalNotWorsening == Some(true)
  }

  lemma {:induction false} FieldsMean(observations: seq<Observation>)
    ensures AllFieldsRecovered(observations) <==> BothRecovered(observations)
  {
    if |observations| == 2 {
      assert observations[0] in observations && observations[1] in observations;
      assert forall o | o in observations :: o == observations[0] || o == observations[1];
    }
  }

  /** A completed trial saw both recovery observations recovered in every field. */
  lemma {:induction false} CompletedIsRecovered(f: Fates, w: World, adapters: map<string, FaultAdapter>, faultClass: string, precondition: Option<seq<Observation>>,
                                                out: ScenarioOutcome)
    requires out == ScenarioRun(f, w, adapters, faultClass, precondition).out && out.Completed?
    ensures AllFieldsRecovered(out.result.recovery)
  {
    ScenarioCompletesIff(f, w, adapters, faultClass, precondition);
    FieldsMean(out.result.recovery);
  }

  /** One of the calls from the first to the second raises this error. */
  ghost predicate RaisedBetween(f: Fates, first: nat, last: nat, e: Error) {
    exists call: nat | first <= call < last :: RaisedBy(f, call, e)
  }

  ghost predicate RaisedBy(f: Fates, call: nat, e: Error) {
    f.read(call) == Some(e) || f.write(call).error == Some(e) || f.observe(call) == Err(e)
  }

  /** An error of the protocol's own is a governance error; every other one was raised by a call. */
  ghost predicate Accounted(f: Fates, first: nat, last: nat, e: Error) {
    e.kind == Governance || RaisedBetween(f, first, last, e)
  }

  lemma {:induction false} OfferAccounts(f: Fates, w: World, d: Document, phase: Phase, mismatch: string)
    ensures
      var half := Offer(f, w, d, phase, mismatch);
      w.calls <= half.world.calls && (half.error.Some? ==> Accounted(f, w.calls, half.world.calls, half.error.value))
  {
    var half := Offer(f, w, d, phase, mismatch);
    if half.error.Some? && half.error.value.kind != Governance {
      var last := half.world.calls - 1;
      assert RaisedBy(f, last, half.error.value);
    }
  }

  lemma {:induction false} StartAccounts(f: Fates, w: World, precondition: Option<seq<Observation>>)
    ensures
      var started := Started(f, w, precondition);
      w.calls <= started.world.calls && (started.out.Err? ==> Accounted(f, w.calls, started.world.calls, started.out.error))
  {
    var started := Started(f, w, precondition);
    if started.out.Err? && started.out.error.kind != Governance {
      assert RaisedBy(f, started.world.calls - 1, started.out.error);
    }
  }

  lemma AccountedLater(f: Fates, first: nat, low: nat, high: nat, last: nat, e: Error)
    requires Accounted(f, low, high, e) && first <= low && high <= last
    ensures Accounted(f, first, last, e)
  {
  }

  lemma {:induction false} TriedAccounts(f: Fates, w: World, original: Document, mutated: Result<Document>, faultClass: string)
    ensures
      var tried := Tried(f, w, original, mutated, faultClass);
      && w.calls <= tried.world.calls
      && (tried.out.Failed? ==> Accounted(f, w.calls, tried.world.calls, tried.out.error))
      && (tried.out.Quarantined? ==> Accounted(f, w.calls, tried.world.calls, tried.out.cleanup))
  {
    var injected := Injected(f, w, original, mutated, faultClass);
    var restored := Restored(f, injected.world, original);
    var tried := Tried(f, w, original, mutated, faultClass);
    if mutated.Success? {
      OfferAccounts(f, w, mutated.value, Fault, "injection readback mismatch");
    }
    OfferAccounts(f, injected.world, original, Recovery, "restoration readback mismatch");
    if restored.error.Some? {
      AccountedLater(f, w.calls, injected.world.calls, restored.world.calls, tried.world.calls, restored.error.value);
    } else if injected.error.Some? {
      AccountedLater(f, w.calls, w.calls, injected.world.calls, tried.world.calls, injected.error.value);
    } else if tried.out.Failed? {
      assert RaisedBy(f, restored.world.calls, tried.out.error);
    }
  }

  /**
   * What a trial fails or is quarantined with is a governance error or was raised by one of its own
   * calls: the protocol never makes an infrastructure failure of a refusal.
   */
  lemma {:induction false} ErrorsComeFromCalls(f: Fates, w: World, adapters: map<string, FaultAdapter>, faultClass: string, precondition: Option<seq<Observation>>)
    ensures
      var run := ScenarioRun(f, w, adapters, faultClass, precondition);
      && (run.out.Failed? ==> Accounted(f, w.calls, run.world.calls, run.out.error))
      && (run.out.Quarantined? ==> Accounted(f, w.calls, run.world.calls, run.out.cleanup))
  {
    if faultClass in adapters {
      StartAccounts(f, w, precondition);
      var started := Started(f, w, precondition);
      if started.out.Ok? {
        var tried := Tried(f, started.world, started.out.value, MutatedDocument(started.out.value, adapters[faultClass]), faultClass);
        TriedAccounts(f, started.world, started.out.value, MutatedDocument(started.out.value, adapters[faultClass]), faultClass);
        if tried.out.Failed? {
          AccountedLater(f, w.calls, started.world.calls, tried.world.calls, tried.world.calls, tried.out.error);
        } else if tried.out.Quarantined? {
          AccountedLater(f, w.calls, started.world.calls, tried.world.calls, tried.world.calls, tried.out.cleanup);
        }
      }
    }
  }

  /**
   * And an infrastructure failure of the injecting write, with a good restoration after it, is what
   * the trial fails with.
   */
  lemma {:induction false} InjectionErrorIsRaised(f: Fates, w: World, adapters: map<string, FaultAdapter>, faultClass: string, precondition: Option<seq<Observation>>,
                                                  call: nat, after: World, e: Error)
    requires Attempted(f, w, adapters, faultClass, precondition) && call == w.calls + StartCalls(precondition)
    requires MutatedDocument(w.document, adapters[faultClass]).Success? && f.write(call).error == Some(e)
    requires after == AfterInjection(f, w, MutatedDocument(w.document, adapters[faultClass]), faultClass, precondition)
    requires RestorationHolds(f, after.document, after.calls, w.document)
    ensures ScenarioRun(f, w, adapters, faultClass, precondition).out == Failed(e)
  {
    StartedIff(f, w, precondition);
    RestoredIff(f, after, w.document);
  }

  /**
   * After an attempted injection, a restoration that was written, read back and observed twice
   * quarantines the trial if one field of one observation is missing or false.
   */
  lemma {:induction false} UnrecoveredIsQuarantined(f: Fates, w: World, adapters: map<string, FaultAdapter>, faultClass: string, precondition: Option<seq<Observation>>,
                                                    after: World)
    requires Attempted(f, w, adapters, faultClass, precondition)
    requires after == AfterInjection(f, w, MutatedDocument(w.document, adapters[faultClass]), faultClass, precondition)
    requires OfferHolds(f, after.document, after.calls, w.document) && !AllFieldsRecovered(Pair(f, after.calls + 2))
    ensures ScenarioRun(f, w, adapters, faultClass, precondition).out.Quarantined?
  {
    FieldsMean(Pair(f, after.calls + 2));
    QuarantinedIff(f, w, adapters, faultClass, precondition);
  }

  // ---------------------------------------------------------------------------------------------
  // What a v3 trial promises, and what its errors tell.

  predicate StartHoldsV3(f: Fates, calls: nat, count: nat) {
    StartHolds(f, calls, None) && AllSeen(f, calls + 2, count)
  }

  predicate Sees(f: Fates, call: nat) {
    f.observe(call).Ok?
  }

  predicate AllSeen(f: Fates, calls: nat, n: nat) {
    forall call: nat | calls <= call < calls + n :: Sees(f, call)
  }

  /** What `n` observations from this call on report. */
  function Seen(f: Fates, calls: nat, n: nat): seq<Observation>
    requires AllSeen(f, calls, n)
  {
    if n == 0 then [] else
      assert Sees(f, calls + n - 1);
      Seen(f, calls, n - 1) + [f.observe(calls + n - 1).value]
  }

  lemma {:induction false} WindowsIff(f: Fates, w: World, n: nat)
    ensures
      var windows := Windows(f, w, n);
      && (windows.out.Ok? <==> AllSeen(f, w.calls, n))
      && windows.world.document == w.document
      && OnlyObservations(w.log, windows.world.log)
      && (windows.out.Ok? ==> windows.out.value == Seen(f, w.calls, n) && windows.world.calls == w.calls + n && |windows.world.log| == |w.log| + n)
    decreases n
  {
    if n > 0 {
      WindowsIff(f, w, n - 1);
      assert AllSeen(f, w.calls, n) <==> AllSeen(f, w.calls, n - 1) && Sees(f, w.calls + n - 1);
    }
  }

  lemma {:induction false} StartedV3Iff(f: Fates, w: World, count: nat)
    ensures
      var started := StartedV3(f, w, count);
      && (started.out.Ok? <==> StartHoldsV3(f, w.calls, count))
      && started.world.document == w.document
      && OnlyObservations(w.log, started.world.log)
      && (started.out.Ok? ==>
            && started.out.value == (w.document, Seen(f, w.calls + 2, count)) && started.world.calls == w.calls + 2 + count
            && |started.world.log| == |w.log| + 2 + count)
  {
    StartedIff(f, w, None);
    if StartHolds(f, w.calls, None) {
      WindowsIff(f, Started(f, w, None).world, count);
    }
  }

  ghost predicate AttemptedV3(f: Fates, w: World, adapters: map<string, FaultAdapter>, faultClass: string, count: nat) {
    faultClass in adapters && StartHoldsV3(f, w.calls, count)
  }

  /** What the two halves of an attempted v3 trial raised. */
  ghost function ErrorsOf(f: Fates, w: World, mutated: Result<Document>, faultClass: string, count: nat): Diagnostics {
    var injected := Injected(f, StartedV3(f, w, count).world, w.document, mutated, faultClass);
    Diagnostics(injected.error, Restored(f, injected.world, w.document).error)
  }

  /** What client and observer make a v3 trial report: every part holds, the packet included. */
  function ReadinessReport(f: Fates, calls: nat, document: Document, adapters: map<string, FaultAdapter>, faultClass: string,
                           count: nat, packet: PacketBuilder): Option<ScenarioResult>
  {
    if faultClass !in adapters || !StartHoldsV3(f, calls, count) then None
    else ReportAfter(f, calls + 2 + count, document, Seen(f, calls + 2, count), adapters[faultClass], faultClass, packet)
  }

  function ReportAfter(f: Fates, calls: nat, document: Document, windows: seq<Observation>, adapter: FaultAdapter, faultClass: string,
                       packet: PacketBuilder): Option<ScenarioResult>
  {
    match TrialReport(f, calls, document, MutatedDocument(document, adapter), faultClass)
    case None => None
    case Some(r) => if packet(windows, r.faults).None? && f.read(calls + 8).None? then Some(r) else None
  }

  lemma {:induction false} TriedV3Iff(f: Fates, w: World, windows: seq<Observation>, mutated: Result<Document>, faultClass: string, packet: PacketBuilder)
    ensures
      var tried := TriedV3(f, w, w.document, windows, mutated, faultClass, packet);
      var report := TrialReport(f, w.calls, w.document, mutated, faultClass);
      && (tried.out.CompletedV3? <==> report.Some? && packet(windows, report.value.faults).None? && f.read(w.calls + 8).None?)
      && (tried.out.CompletedV3? ==>
            && tried.out.result == report.value
            && tried.world.log == w.log + TrialTrace(w.document, mutated, report.value) + [Readback(w.document)])
  {
    HalvesIff(f, w, mutated, faultClass);
  }

  lemma {:induction false} TriedV3IsSafe(f: Fates, w: World, windows: seq<Observation>, mutated: Result<Document>, faultClass: string, packet: PacketBuilder)
    ensures
      var tried := TriedV3(f, w, w.document, windows, mutated, faultClass, packet);
      && ((tried.out.RaisedError? && tried.out.diagnostics.Some? ==> tried.out.diagnostics.value.cleanup.None?) ==> tried.world.document == w.document)
      && WritesOnly(w.log, tried.world.log, Offered(w.document, mutated))
  {
    HalvesKeep(f, w, mutated, faultClass);
  }

  lemma {:induction false} ReadinessFromIff(f: Fates, started: Turn<Outcome<(Document, seq<Observation>)>>, adapter: FaultAdapter, faultClass: string, packet: PacketBuilder)
    requires started.out.Ok? && started.out.value.0 == started.world.document
    ensures
      var w, run := started.world, ReadinessFrom(f, started, adapter, faultClass, packet);
      var report := ReportAfter(f, w.calls, w.document, started.out.value.1, adapter, faultClass, packet);
      && (run.out.CompletedV3? <==> report.Some?) && (run.out.CompletedV3? ==> run.out.result == report.value)
      && (report.Some? ==> run.world.log == w.log + TrialTrace(w.document, MutatedDocument(w.document, adapter), report.value) + [Readback(w.document)])
  {
    TriedV3Iff(f, started.world, started.out.value.1, MutatedDocument(started.world.document, adapter), faultClass, packet);
  }

  lemma {:induction false} ReadinessRefused(f: Fates, w: World, adapters: map<string, FaultAdapter>, faultClass: string, count: nat, packet: PacketBuilder)
    requires !AttemptedV3(f, w, adapters, faultClass, count)
    ensures ReadinessRun(f, w, adapters, faultClass, count, packet).out.RaisedError?
    ensures ReadinessReport(f, w.calls, w.document, adapters, faultClass, count, packet).None?
  {
    StartedV3Iff(f, w, count);
  }

  /** An attempted trial goes on from where its start has left it. */
  lemma {:induction false} ReadinessGoesOn(f: Fates, w: World, adapters: map<string, FaultAdapter>, faultClass: string, count: nat, packet: PacketBuilder)
    returns (started: Turn<Outcome<(Document, seq<Observation>)>>)
    requires AttemptedV3(f, w, adapters, faultClass, count)
    ensures started == StartedV3(f, w, count) && started.out.Ok? && started.out.value.0 == started.world.document == w.document
    ensures started.world.calls == w.calls + 2 + count
    ensures OnlyObservations(w.log, started.world.log) && |started.world.log| == |w.log| + 2 + count
    ensures ReadinessRun(f, w, adapters, faultClass, count, packet) == ReadinessFrom(f, started, adapters[faultClass], faultClass, packet)
    ensures started.out.value.1 == Seen(f, w.calls + 2, count)
  {
    started := StartedV3(f, w, count);
    StartedV3Iff(f, w, count);
  }

  lemma {:induction false} AttemptedCompletesIff(f: Fates, w: World, adapters: map<string, FaultAdapter>, faultClass: string, count: nat, packet: PacketBuilder,
                              run: Turn<OutcomeV3>, report: Option<ScenarioResult>)
    requires AttemptedV3(f, w, adapters, faultClass, count)
    requires run == ReadinessFrom(f, StartedV3(f, w, count), adapters[faultClass], faultClass, packet)
    requires report == ReportAfter(f, w.calls + 2 + count, w.document, Seen(f, w.calls + 2, count), adapters[faultClass], faultClass, packet)
    ensures (run.out.CompletedV3? <==> report.Some?) && (run.out.CompletedV3? ==> run.out.result == report.value)
  {
    var started := ReadinessGoesOn(f, w, adapters, faultClass, count, packet);
    ReadinessFromIff(f, started, adapters[faultClass], faultClass, packet);
  }

  /** A v3 trial completes exactly when client, observer and packet let it, and then reports what was observed. */
  lemma {:induction false} ReadinessCompletesIff(f: Fates, w: World, adapters: map<string, FaultAdapter>, faultClass: string, count: nat, packet: PacketBuilder)
    ensures
      var out := ReadinessRun(f, w, adapters, faultClass, count, packet).out;
      var report := ReadinessReport(f, w.calls, w.document, adapters, faultClass, count, packet);
      (out.CompletedV3? <==> report.Some?) && (out.CompletedV3? ==> out.result == report.value)
  {
    if !AttemptedV3(f, w, adapters, faultClass, count) {
      ReadinessRefused(f, w, adapters, faultClass, count, packet);
    } else {
      AttemptedCompletesIff(f, w, adapters, faultClass, count, packet, ReadinessRun(f, w, adapters, faultClass, count, packet),
                            ReadinessReport(f, w.calls, w.document, adapters, faultClass, count, packet));
    }
  }

  /**
   * Under every failure pattern of a v3 trial: the document is the original unless the diagnostics
   * name a cleanup error, only the original and its mutation are ever offered, and nothing is written
   * before the healthy windows are complete.
   */
  lemma {:induction false} ReadinessIsSafe(f: Fates, w: World, adapters: map<string, FaultAdapter>, faultClass: string, count: nat, packet: PacketBuilder)
    ensures
      var run := ReadinessRun(f, w, adapters, faultClass, count, packet);
      && ((run.out.RaisedError? && run.out.diagnostics.Some? ==> run.out.diagnostics.value.cleanup.None?) ==> run.world.document == w.document)
      && WritesOnly(w.log, run.world.log, if faultClass in adapters then Offered(w.document, MutatedDocument(w.document, adapters[faultClass])) else {})
      && (!AttemptedV3(f, w, adapters, faultClass, count) ==> run.out.RaisedError? && OnlyObservations(w.log, run.world.log))
  {
    StartedV3Iff(f, w, count);
    if AttemptedV3(f, w, adapters, faultClass, count) {
      var started, mutated := StartedV3(f, w, count).world, MutatedDocument(w.document, adapters[faultClass]);
      var windows := Seen(f, w.calls + 2, count);
      TriedV3IsSafe(f, started, windows, mutated, faultClass, packet);
      ObservedThenWritten(w.log, started.log, TriedV3(f, started, w.document, windows, mutated, faultClass, packet).world.log,
                          Offered(w.document, mutated));
    }
  }

  /** A completed v3 trial has the healthy windows before any write, and then the events of a good one. */
  lemma {:induction false} CompletedReadinessEvents(f: Fates, w: World, adapters: map<string, FaultAdapter>, faultClass: string, count: nat, packet: PacketBuilder,
                                 r: ScenarioResult, after: World)
    requires ReadinessRun(f, w, adapters, faultClass, count, packet) == Turn(CompletedV3(r), after)
    ensures faultClass in adapters
    ensures
      var started := StartedV3(f, w, count).world;
      && OnlyObservations(w.log, started.log) && |started.log| == |w.log| + 2 + count
      && after.log == started.log + TrialTrace(w.document, MutatedDocument(w.document, adapters[faultClass]), r) + [Readback(w.document)]
  {
    if !AttemptedV3(f, w, adapters, faultClass, count) {
      ReadinessRefused(f, w, adapters, faultClass, count, packet);
    } else {
      var started := ReadinessGoesOn(f, w, adapters, faultClass, count, packet);
      ReadinessFromIff(f, started, adapters[faultClass], faultClass, packet);
    }
  }

  /** A stretch of a log that holds nothing but control observations of one document. */
  ghost predicate OnlyWindows(events: seq<Event>, document: Document) {
    forall i | 0 <= i < |events| :: events[i].Saw? && events[i].phase == Control && events[i].document == document
  }

  lemma {:induction false} WindowsAreSeen(f: Fates, w: World, n: nat)
    requires AllSeen(f, w.calls, n)
    ensures
      var windows := Windows(f, w, n);
      windows.out.Ok? && w.log <= windows.world.log && OnlyWindows(windows.world.log[|w.log|..], w.document)
    decreases n
  {
    WindowsIff(f, w, n);
    if n > 0 {
      WindowsIff(f, w, n - 1);
      assert Sees(f, w.calls + n - 1);
      WindowsAreSeen(f, w, n - 1);
    }
  }

  /** The start of a v3 trial: a read and a healthy observation, and then the windows. */
  ghost predicate WindowedPrelude(prelude: seq<Event>, document: Document, count: nat) {
    |prelude| == 2 + count && ProvenHealthy(prelude[..2], document, None) && OnlyWindows(prelude[2..], document)
  }

  lemma {:induction false} StartIsWindowed(f: Fates, w: World, count: nat) returns (prelude: seq<Event>)
    requires StartHoldsV3(f, w.calls, count)
    ensures StartedV3(f, w, count).world.log == w.log + prelude && WindowedPrelude(prelude, w.document, count)
  {
    var begun := Started(f, w, None).world;
    StartedIff(f, w, None);
    WindowsIff(f, begun, count);
    WindowsAreSeen(f, begun, count);
    var windows := Windows(f, begun, count).world;
    prelude := begun.log[|w.log|..] + windows.log[|begun.log|..];
    assert windows.log == w.log + prelude;
    assert prelude[..2] == begun.log[|w.log|..] && prelude[2..] == windows.log[|begun.log|..];
  }

  /**
   * A completed v3 trial reads the document, sees the system healthy once and then in five windows,
   * all on the original, and only then offers the mutation.
   */
  lemma {:induction false} FiveWindowsPrecede(f: Fates, w: World, adapters: map<string, FaultAdapter>, faultClass: string, packet: PacketBuilder,
                                              r: ScenarioResult, after: World) returns (prelude: seq<Event>, injected: Document)
    requires ReadinessRun(f, w, adapters, faultClass, HEALTHY_WINDOW_COUNT, packet) == Turn(CompletedV3(r), after)
    ensures |prelude| == 7 && WindowedPrelude(prelude, w.document, 5) && w.log + prelude + [Wrote(injected, injected)] <= after.log
    ensures faultClass in adapters && DifferInVariantOf(w.document, injected, adapters[faultClass].flagKey)
  {
    CompletedReadinessEvents(f, w, adapters, faultClass, HEALTHY_WINDOW_COUNT, packet, r, after);
    ReadinessCompletesIff(f, w, adapters, faultClass, HEALTHY_WINDOW_COUNT, packet);
    prelude := StartIsWindowed(f, w, HEALTHY_WINDOW_COUNT);
    MutationIsExact(w.document, adapters[faultClass]);
    injected := MutatedDocument(w.document, adapters[faultClass]).value;
  }

  /** The same for a v3 trial. */
  lemma {:induction false} CompletedReadinessIsRecovered(f: Fates, w: World, adapters: map<string, FaultAdapter>, faultClass: string, count: nat, packet: PacketBuilder,
                                                         out: OutcomeV3)
    requires out == ReadinessRun(f, w, adapters, faultClass, count, packet).out && out.CompletedV3?
    ensures AllFieldsRecovered(out.result.recovery)
  {
    ReadinessCompletesIff(f, w, adapters, faultClass, count, packet);
    FieldsMean(out.result.recovery);
  }

  /** An unrecovered v3 trial names a cleanup error. */
  lemma {:induction false} UnrecoveredIsDiagnosed(f: Fates, w: World, adapters: map<string, FaultAdapter>, faultClass: string, count: nat, packet: PacketBuilder,
                                                  after: World)
    requires AttemptedV3(f, w, adapters, faultClass, count)
    requires after == Injected(f, StartedV3(f, w, count).world, w.document, MutatedDocument(w.document, adapters[faultClass]), faultClass).world
    requires OfferHolds(f, after.document, after.calls, w.document) && !AllFieldsRecovered(Pair(f, after.calls + 2))
    ensures
      var out := ReadinessRun(f, w, adapters, faultClass, count, packet).out;
      out.RaisedError? && out.diagnostics.Some? && out.diagnostics.value.cleanup.Some?
  {
    FieldsMean(Pair(f, after.calls + 2));
    RestoredIff(f, after, w.document);
    DiagnosticsTellBoth(f, w, adapters, faultClass, count, packet);
  }

  /** The errors one can tell from what is raised. */
  predicate Names(raised: RaisedV3, error: Error) {
    match raised
    case Plain(e) => e == error
    case Both(p, c) => p == error || c == error
    case CleanupBlocked(c) => c == error
  }

  /** How the matrix classifies what is raised: a combined or wrapped error is a governance error. */
  function RaisedKind(raised: RaisedV3): Kind {
    match raised
    case Plain(e) => e.kind
    case _ => Governance
  }

  /** The primary error is an infrastructure failure, and the cleanup error is another error. */
  predicate Hides(d: Diagnostics) {
    d.primary.Some? && d.cleanup.Some? && d.primary.value.kind == Infrastructure && d.cleanup != d.primary
  }

  /**
   * Diagnostics are attached exactly when an injection was attempted and one of its halves raised;
   * they hold the errors of both. What is raised always names the primary error, names the cleanup
   * error exactly unless it is hidden, names no third one, and counts as an infrastructure failure
   * exactly when the first error is one.
   */
  lemma {:induction false} DiagnosticsTellBoth(f: Fates, w: World, adapters: map<string, FaultAdapter>, faultClass: string, count: nat, packet: PacketBuilder)
    ensures
      var out := ReadinessRun(f, w, adapters, faultClass, count, packet).out;
      && (out.RaisedError? && out.diagnostics.Some? <==>
            && AttemptedV3(f, w, adapters, faultClass, count)
            && ErrorsOf(f, w, MutatedDocument(w.document, adapters[faultClass]), faultClass, count) != Diagnostics(None, None))
      && (out.RaisedError? && out.diagnostics.Some? ==>
            var d := ErrorsOf(f, w, MutatedDocument(w.document, adapters[faultClass]), faultClass, count);
            && out.diagnostics == Some(d)
            && (d.primary.Some? ==> Names(out.raised, d.primary.value))
            && (d.cleanup.Some? ==> (Names(out.raised, d.cleanup.value) <==> !Hides(d)))
            && (forall e: Error :: Names(out.raised, e) ==> d.primary == Some(e) || d.cleanup == Some(e))
            && (RaisedKind(out.raised) == Infrastructure <==>
                  if d.primary.Some? then d.primary.value.kind == Infrastructure else d.cleanup.value.kind == Infrastructure))
  {
    StartedV3Iff(f, w, count);
  }

  /** Client and observer go along until the injecting write, which raises `primary`; the restoring write raises `cleanup`. */
  function FailingWrites(primary: Error, cleanup: Error, healthy: Observation, count: nat): Fates {
    Fates(calls => WriteFate(Stored, Some(if calls == 2 + count then primary else cleanup)),
          _ => None, _ => Ok(healthy), (_, _) => Unknown)
  }

  /**
   * The failing input: on any document the adapter can mutate, an injecting write that raises an
   * infrastructure failure and a restoring write that raises another error. What is raised names the
   * first one only.
   */
  lemma {:induction false} CleanupIsHidden(document: Document, adapters: map<string, FaultAdapter>, faultClass: string, count: nat, packet: PacketBuilder,
                        primary: Error, cleanup: Error, healthy: Observation)
    requires faultClass in adapters && MutatedDocument(document, adapters[faultClass]).Success?
    requires primary.kind == Infrastructure && cleanup != primary && healthy.state == Healthy
    ensures
      var out := ReadinessRun(FailingWrites(primary, cleanup, healthy, count), World(document, 0, []), adapters, faultClass, count, packet).out;
      && out == RaisedError(Plain(primary), Some(Diagnostics(Some(primary), Some(cleanup))))
      && !Names(out.raised, cleanup)
  {
    var f, w := FailingWrites(primary, cleanup, healthy, count), World(document, 0, []);
    StartedV3Iff(f, w, count);
  }
}
