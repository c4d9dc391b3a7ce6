/** The payload of a passed scenario trial, and the recovery evidence a later run reads back from it. */
module ScenarioJson {
  import opened Prelude
  import opened Json
  import opened FlagProtocol
  import opened ScenarioMatrix

  function StateText(s: OracleState): string {
    match s
    case Healthy => "HEALTHY"
    case FaultActive => "FAULT_ACTIVE"
    case Unknown => "UNKNOWN"
  }

  function AsState(v: Value): OracleState {
    if v == Text("HEALTHY") then Healthy else if v == Text("FAULT_ACTIVE") then FaultActive else Unknown
  }

  function FlagField(key: string, b: Option<bool>): Json.Document {
    if b.Some? then map[key := Value.Flag(b.value)] else map[]
  }

  function AsFlag(v: Value): Option<bool> {
    if v.Flag? then Some(v.flag) else None
  }

  function ObservationFields(o: Observation): Json.Document {
    map["state" := Text(StateText(o.state)), "rest" := Text(o.rest)]
    + FlagField("ready", o.ready)
    + FlagField("journey_healthy", o.journeyHealthy)
    + FlagField("signal_not_worsening", o.signalNotWorsening)
  }

  function ObservationJson(o: Observation): Value {
    Object(ObservationFields(o))
  }

  function AsObservation(v: Value): Option<Observation> {
    if v.Object? && Get(v.fields, "rest").Text? then
      var d := v.fields;
      Some(Observation(AsState(Get(d, "state")), AsFlag(Get(d, "ready")), AsFlag(Get(d, "journey_healthy")),
                       AsFlag(Get(d, "signal_not_worsening")), Get(d, "rest").text))
    else None
  }

  function Listed(s: seq<Observation>): Value {
    Listing(seq(|s|, i requires 0 <= i < |s| => ObservationJson(s[i])))
  }

  function AsObservations(items: seq<Value>, n: nat): Option<seq<Observation>>
    requires n <= |items|
  {
    if n == 0 then Some([])
    else match (AsObservations(items, n - 1), AsObservation(items[n - 1]))
      case (Some(before), Some(o)) => Some(before + [o])
      case _ => None
  }

  function ResultPayload(seed: Seed, r: ScenarioResult): Value {
    Object(map["scenario_id" := Text(seed.scenarioId), "fault_class" := Text(seed.faultClass),
               "result" := Object(map["fault_observations" := Listed(r.faults), "recovery_observations" := Listed(r.recovery)])])
  }

  /** The recovery evidence of a passed trial; anything else is an error. */
  function RecoveryOf(payload: Value): Option<seq<Observation>> {
    if payload.Object? && Get(payload.fields, "result").Object?
       && Get(Get(payload.fields, "result").fields, "recovery_observations").Listing?
    then
      var items := Get(Get(payload.fields, "result").fields, "recovery_observations").items;
      AsObservations(items, |items|)
    else None
  }

  /** Optional fields laid over a document under other keys leave it as it is and read back as they are. */
  lemma FieldReadsBack(d: Json.Document, key: string, b: Option<bool>)
    requires key !in d
    ensures AsFlag(Get(d + FlagField(key, b), key)) == b
    ensures forall k | k != key :: Get(d + FlagField(key, b), k) == Get(d, k)
    ensures forall k | k != key :: k in d + FlagField(key, b) <==> k in d
  {
  }

  lemma {:induction false} FieldsReadBack(o: Observation)
    ensures
      var d := ObservationFields(o);
      && Get(d, "state") == Text(StateText(o.state)) && Get(d, "rest") == Text(o.rest)
      && AsFlag(Get(d, "ready")) == o.ready
      && AsFlag(Get(d, "journey_healthy")) == o.journeyHealthy
      && AsFlag(Get(d, "signal_not_worsening")) == o.signalNotWorsening
  {
    var fixed: Json.Document := map["state" := Text(StateText(o.state)), "rest" := Text(o.rest)];
    FieldReadsBack(fixed, "ready", o.ready);
    var d := fixed + FlagField("ready", o.ready);
    FieldReadsBack(d, "journey_healthy", o.journeyHealthy);
    var e := d + FlagField("journey_healthy", o.journeyHealthy);
    FieldReadsBack(e, "signal_not_worsening", o.signalNotWorsening);
  }

  lemma StateReadsBack(s: OracleState)
    ensures AsState(Text(StateText(s))) == s
  {
  }

  lemma {:induction false} ObservationReadsBack(o: Observation)
    ensures AsObservation(ObservationJson(o)) == Some(o)
  {
    FieldsReadBack(o);
    StateReadsBack(o.state);
  }

  /** Items that read back one by one read back together. */
  lemma {:induction false} ItemsReadBack(items: seq<Value>, s: seq<Observation>, n: nat)
    requires n <= |items| == |s| && forall i | 0 <= i < |s| :: AsObservation(items[i]) == Some(s[i])
    ensures AsObservations(items, n) == Some(s[..n])
    decreases n
  {
    if n > 0 {
      ItemsReadBack(items, s, n - 1);
      assert s[..n] == s[..n - 1] + [s[n - 1]];
    }
  }

  lemma {:induction false} ListingReadsBack(s: seq<Observation>)
    ensures AsObservations(Listed(s).items, |s|) == Some(s)
  {
    forall i | 0 <= i < |s|
      ensures AsObservation(Listed(s).items[i]) == Some(s[i])
    {
      ObservationReadsBack(s[i]);
    }
    ItemsReadBack(Listed(s).items, s, |s|);
    assert s[..|s|] == s;
  }

  /** The recovery evidence a pass was recorded with is what a later run starts the next seed from. */
  lemma {:induction false} RecoveryReadsBack(seed: Seed, r: ScenarioResult)
    ensures RecoveryOf(ResultPayload(seed, r)) == Some(r.recovery)
  {
    ListingReadsBack(r.recovery);
  }

  /** So the configurations of the matrix are valid for any seeds under distinct trials. */
  lemma {:induction false} JsonConfigIsValid(seeds: seq<Seed>, producerSha: string)
    requires forall i, j | 0 <= i < j < |seeds| :: seeds[i].trialId != seeds[j].trialId
    ensures Valid(Config(seeds, producerSha, ResultPayload, RecoveryOf))
  {
    forall seed: Seed, r: ScenarioResult
      ensures RecoveryOf(ResultPayload(seed, r)) == Some(r.recovery)
    {
      RecoveryReadsBack(seed, r);
    }
  }
}
