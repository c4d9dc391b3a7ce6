/**
 * The trial journal of `experiment.py`: executions, record writes and runtime checkpoints of a
 * trial, kept apart. The transition of each operation is defined once, as a function on the
 * stored records; the class `TrialJournal` performs it in place.
 */
module Journal {
  import opened Prelude
  import opened Json

  /** A payload is JSON, identified with its canonical text. */
  type Payload = Value

  /** SHA-256 over canonical JSON, idealised as an injective function: digests are free terms. */
  datatype Digest =
    | PayloadDigest(payload: Payload)
    | KeyDigest(checkpoints: map<string, string>, dependencies: map<string, Digest>, inputDigest: string)
    | ArtifactDigest(semanticKey: Digest, artifact: Digest)

  datatype Status = Running | Pass | MetricFail | InfraFailed | Blocked | Other(text: string) {
    predicate Terminal() {
      Pass? || MetricFail? || InfraFailed? || Blocked?
    }

    predicate Resumable() {
      Running? || InfraFailed?
    }
  }

  /** A stored document without its history. */
  datatype Entry = Entry(
    status: Status,
    executionAttempt: nat,
    recordVersion: nat,
    producerSha: string,
    cacheKey: Digest,
    runtimeCheckpoints: map<string, Payload>,
    payload: Payload,
    artifactDigest: Option<Digest>)

  datatype Record = Record(current: Entry, history: seq<Entry>)

  type Trials = map<string, Record>

  ghost predicate SameTrial(a: Trials, b: Trials, id: string) {
    (id in a <==> id in b) && (id in a ==> a[id] == b[id])
  }

  datatype Op =
    | Begin(trialId: string, producerSha: string, cacheKey: Digest, payload: Payload)
    | Checkpoint(trialId: string, name: string, observation: Payload, newPayload: Option<Payload>)
    | Finish(trialId: string, status: Status, payload: Payload)

  function BeginRecord(previous: Option<Record>, op: Op): Record
    requires op.Begin?
  {
    match previous
    case None =>
      Record(Entry(Running, 1, 1, op.producerSha, op.cacheKey, map[], op.payload, None), [])
    case Some(p) =>
      Record(
        Entry(Running, p.current.executionAttempt + 1, p.current.recordVersion + 1,
              op.producerSha, op.cacheKey,
              if p.current.cacheKey == op.cacheKey then p.current.runtimeCheckpoints else map[],
              op.payload, None),
        p.history + [p.current])
  }

  /** An operation is refused, and then writes nothing, exactly when the source raises. */
  predicate Accepted(trials: Trials, op: Op) {
    match op
    case Begin(_, _, _, _) => true
    case Checkpoint(id, name, _, _) => name != "" && id in trials && trials[id].current.status == Running
    case Finish(id, status, _) => status.Terminal() && id in trials && trials[id].current.status == Running
  }

  function Written(trials: Trials, op: Op): Record
    requires Accepted(trials, op)
  {
    match op
    case Begin(id, _, _, _) =>
      BeginRecord(if id in trials then Some(trials[id]) else None, op)
    case Checkpoint(id, name, observation, newPayload) =>
      var e := trials[id].current;
      trials[id].(current := e.(recordVersion := e.recordVersion + 1,
      runtimeCheckpoints := e.runtimeCheckpoints[name := observation],
      payload := if newPayload.Some? then newPayload.value else e.payload))
    case Finish(id, status, payload) =>
      var e := trials[id].current;
      trials[id].(current := e.(status := status, recordVersion := e.recordVersion + 1,
      payload := payload, artifactDigest := Some(PayloadDigest(payload))))
  }

  function After(trials: Trials, op: Op): Trials {
    if Accepted(trials, op) then trials[op.trialId := Written(trials, op)] else trials
  }

  class TrialJournal {
    var trials: Trials

    constructor ()
      ensures trials == map[]
    {
      trials := map[];
    }

    method Read(trialId: string) returns (record: Option<Record>)
      ensures record == if trialId in trials then Some(trials[trialId]) else None
    {
      record := if trialId in trials then Some(trials[trialId]) else None;
    }

    method BeginTrial(trialId: string, producerSha: string, cacheKey: Digest, payload: Payload)
      returns (record: Record)
      modifies this
      ensures trials == After(old(trials), Begin(trialId, producerSha, cacheKey, payload))
      ensures trialId in trials && record == trials[trialId]
    {
      var previous := Read(trialId);
      record := BeginRecord(previous, Begin(trialId, producerSha, cacheKey, payload));
      trials := trials[trialId := record];
    }

    method CheckpointTrial(trialId: string, name: string, observation: Payload, newPayload: Option<Payload>)
      returns (r: Result<Record>)
      modifies this
      ensures trials == After(old(trials), Checkpoint(trialId, name, observation, newPayload))
      ensures r.Success? <==> Accepted(old(trials), Checkpoint(trialId, name, observation, newPayload))
      ensures r.Success? ==> trialId in trials && r.value == trials[trialId]
    {
      if name == "" {
        return Failure;
      }
      var previous := Read(trialId);
      if previous.None? || previous.value.current.status != Running {
        return Failure;
      }
      var e := previous.value.current;
      var checkpoints := e.runtimeCheckpoints[name := observation];
      var record := previous.value.(current := e.(
        recordVersion := e.recordVersion + 1,
        runtimeCheckpoints := checkpoints,
        payload := if newPayload.Some? then newPayload.value else e.payload));
      trials := trials[trialId := record];
      r := Success(record);
    }

    method FinishTrial(trialId: string, status: Status, payload: Payload) returns (r: Result<Record>)
      modifies this
      ensures trials == After(old(trials), Finish(trialId, status, payload))
      ensures r.Success? <==> Accepted(old(trials), Finish(trialId, status, payload))
      ensures r.Success? ==> trialId in trials && r.value == trials[trialId]
    {
      if !status.Terminal() {
        return Failure;
      }
      var previous := Read(trialId);
      if previous.None? || previous.value.current.status != Running {
        return Failure;
      }
      var e := previous.value.current;
      var record := previous.value.(current := e.(
        status := status,
        recordVersion := e.recordVersion + 1,
        payload := payload,
        artifactDigest := Some(PayloadDigest(payload))));
      trials := trials[trialId := record];
      r := Success(record);
    }
  }

  // ---------------------------------------------------------------------------------------------
  // What every sequence of journal operations keeps.

  function Replay(ops: seq<Op>): Trials {
    if ops == [] then map[] else After(Replay(ops[..|ops| - 1]), ops[|ops| - 1])
  }

  /** The operations of `ops` that wrote the record of `id`, and among them the executions. */
  function Writes(ops: seq<Op>, id: string): nat {
    if ops == [] then 0 else
      var before := ops[..|ops| - 1];
      var op := ops[|ops| - 1];
      Writes(before, id) + if op.trialId == id && Accepted(Replay(before), op) then 1 else 0
  }

  function Executions(ops: seq<Op>, id: string): nat {
    if ops == [] then 0 else
      var op := ops[|ops| - 1];
      Executions(ops[..|ops| - 1], id) + if op.Begin? && op.trialId == id then 1 else 0
  }

  ghost predicate EntryWellFormed(e: Entry) {
    && !e.status.Other?
    && e.artifactDigest == if e.status.Terminal() then Some(PayloadDigest(e.payload)) else None
  }

  ghost predicate Lineage(r: Record) {
    && r.current.executionAttempt == |r.history| + 1
    && (forall i | 0 <= i < |r.history| :: r.history[i].executionAttempt == i + 1)
    && (forall i, j | 0 <= i < j < |r.history| :: r.history[i].recordVersion < r.history[j].recordVersion)
    && (forall i | 0 <= i < |r.history| :: r.history[i].recordVersion < r.current.recordVersion)
    && EntryWellFormed(r.current)
    && (forall i | 0 <= i < |r.history| :: EntryWellFormed(r.history[i]))
  }

  /** One operation keeps the lineage of every record. */
  lemma AfterKeepsLineage(trials: Trials, op: Op)
    requires forall id | id in trials :: Lineage(trials[id])
    ensures forall id | id in After(trials, op) :: Lineage(After(trials, op)[id])
  {
  }

  /**
   * Lineage over every begin/checkpoint/finish sequence. The version counts the writes of the
   * trial and the attempt counts its executions, so neither a checkpoint nor a finish is ever
   * mistaken for a new execution.
   */
  lemma {:induction false} ReplayLineage(ops: seq<Op>, id: string)
    ensures id in Replay(ops) <==> Executions(ops, id) > 0
    ensures id in Replay(ops) <==> Writes(ops, id) > 0
    ensures id in Replay(ops) ==>
      && Lineage(Replay(ops)[id])
      && Replay(ops)[id].current.executionAttempt == Executions(ops, id)
      && Replay(ops)[id].current.recordVersion == Writes(ops, id)
    decreases |ops|
  {
    if ops != [] {
      ReplayLineage(ops[..|ops| - 1], id);
    }
  }

  /**
   * A terminal record is never lost: however the run goes on after its first `k` operations, the
   * record is still current or stands unchanged at its attempt number in the history.
   */
  lemma {:induction false} TerminalRecordIsNeverLost(ops: seq<Op>, k: nat, id: string)
    requires k <= |ops|
    requires id in Replay(ops[..k]) && Replay(ops[..k])[id].current.status.Terminal()
    ensures id in Replay(ops)
    ensures
      var earlier, latest := Replay(ops[..k])[id], Replay(ops)[id];
      latest == earlier || earlier.history + [earlier.current] <= latest.history
    decreases |ops|
  {
    assert ops[..|ops|] == ops;
    if k < |ops| {
      var before := ops[..|ops| - 1];
      assert before[..k] == ops[..k];
      TerminalRecordIsNeverLost(before, k, id);
    }
  }

  /** From the `i`-th operation on, the trial is recorded under `key`. */
  ghost predicate KeyHeldSince(ops: seq<Op>, i: nat, id: string, key: Digest) {
    forall j | i < j <= |ops| :: id in Replay(ops[..j]) && Replay(ops[..j])[id].current.cacheKey == key
  }

  /** Operation `i` observed this under the name, and no later one observed anything under it. */
  ghost predicate LastObserved(ops: seq<Op>, i: nat, id: string, name: string, observation: Payload) {
    && i < |ops|
    && Observes(ops, i, id, name) && ops[i].observation == observation
    && forall j | i < j < |ops| :: !Observes(ops, j, id, name)
  }

  ghost predicate Observes(ops: seq<Op>, i: nat, id: string, name: string)
    requires i < |ops|
  {
    ops[i].Checkpoint? && ops[i].trialId == id && ops[i].name == name && Accepted(Replay(ops[..i]), ops[i])
  }

  /** The last observation under this name, made while the present key was in force and ever since. */
  ghost predicate CheckpointOrigin(ops: seq<Op>, i: nat, id: string, name: string, observation: Payload) {
    && id in Replay(ops)
    && LastObserved(ops, i, id, name, observation)
    && KeyHeldSince(ops, i, id, Replay(ops)[id].current.cacheKey)
  }

  /**
   * A retained runtime checkpoint is the last observation under its name, made under the key the
   * record has now, and no other key was ever in force between that observation and the present.
   */
  lemma {:induction false} CheckpointsBelongToCurrentKey(ops: seq<Op>, id: string, name: string) returns (i: nat)
    requires id in Replay(ops) && name in Replay(ops)[id].current.runtimeCheckpoints
    ensures CheckpointOrigin(ops, i, id, name, Replay(ops)[id].current.runtimeCheckpoints[name])
    decreases |ops|
  {
    var n := |ops| - 1;
    var before, op := ops[..n], ops[n];
    assert ops[..|ops|] == ops;
    if Observes(ops, n, id, name) {
      i := n;
    } else {
      i := CheckpointsBelongToCurrentKey(before, id, name);
      assert before[..i] == ops[..i];
      forall j | i < j < |ops| ensures !Observes(ops, j, id, name) {
        if j < n {
          assert before[..j] == ops[..j];
          assert !Observes(before, j, id, name);
        }
      }
      forall j | i < j <= |ops|
        ensures id in Replay(ops[..j]) && Replay(ops[..j])[id].current.cacheKey == Replay(ops)[id].current.cacheKey
      {
        if j <= n {
          assert before[..j] == ops[..j];
        }
      }
    }
  }

  /** Everything observed is retained while its key is held, whatever is begun, finished or killed in between. */
  lemma {:induction false} CheckpointIsRetained(ops: seq<Op>, i: nat, id: string, name: string, observation: Payload, key: Digest)
    requires LastObserved(ops, i, id, name, observation) && KeyHeldSince(ops, i, id, key)
    ensures id in Replay(ops) && name in Replay(ops)[id].current.runtimeCheckpoints
    ensures Replay(ops)[id].current.runtimeCheckpoints[name] == observation
    decreases |ops|
  {
    var n := |ops| - 1;
    var before := ops[..n];
    assert ops[..|ops|] == ops;
    if i < n {
      assert before[..i] == ops[..i];
      forall j | i < j < n ensures !Observes(before, j, id, name) {
        assert before[..j] == ops[..j];
        assert !Observes(ops, j, id, name);
      }
      forall j | i < j <= n ensures id in Replay(before[..j]) && Replay(before[..j])[id].current.cacheKey == key {
        assert before[..j] == ops[..j];
      }
      CheckpointIsRetained(before, i, id, name, observation, key);
      assert ops[..n] == before && before[..n] == before;
      assert !Observes(ops, n, id, name);
    }
  }

  /** Exactly which checkpoints a trial holds after any sequence of operations. */
  lemma {:induction false} CheckpointHeldIff(ops: seq<Op>, id: string, name: string, observation: Payload)
    requires id in Replay(ops)
    ensures (name in Replay(ops)[id].current.runtimeCheckpoints && Replay(ops)[id].current.runtimeCheckpoints[name] == observation) <==>
            exists i :: CheckpointOrigin(ops, i, id, name, observation)
  {
    if name in Replay(ops)[id].current.runtimeCheckpoints && Replay(ops)[id].current.runtimeCheckpoints[name] == observation {
      var i := CheckpointsBelongToCurrentKey(ops, id, name);
    }
    if i: nat :| CheckpointOrigin(ops, i, id, name, observation) {
      CheckpointIsRetained(ops, i, id, name, observation, Replay(ops)[id].current.cacheKey);
    }
  }

  // ---------------------------------------------------------------------------------------------
  // What a record says about the operations before it.

  /** Operation `b` began the present execution of the trial. */
  ghost predicate BeganLast(ops: seq<Op>, b: nat, id: string) {
    && b < |ops| && ops[b].Begin? && ops[b].trialId == id
    && forall j | b < j < |ops| :: !(ops[j].Begin? && ops[j].trialId == id)
  }

  ghost predicate Finishes(ops: seq<Op>, j: nat, id: string)
    requires j < |ops|
  {
    ops[j].Finish? && ops[j].trialId == id && Accepted(Replay(ops[..j]), ops[j])
  }

  /** The operation was accepted for the trial and brought a payload. */
  ghost predicate BringsPayload(ops: seq<Op>, j: nat, id: string, payload: Payload)
    requires j < |ops|
  {
    && ops[j].trialId == id && Accepted(Replay(ops[..j]), ops[j])
    && match ops[j]
       case Begin(_, _, _, brought) => brought == payload
       case Checkpoint(_, _, _, brought) => brought == Some(payload)
       case Finish(_, _, brought) => brought == payload
  }

  ghost predicate BringsNone(ops: seq<Op>, j: nat, id: string)
    requires j < |ops|
  {
    ops[j].trialId == id && Accepted(Replay(ops[..j]), ops[j]) ==> ops[j].Checkpoint? && ops[j].newPayload.None?
  }

  /** The producer and the key are those of the last execution begun, however it went on. */
  lemma {:induction false} RecordNamesItsExecution(ops: seq<Op>, id: string) returns (b: nat)
    requires id in Replay(ops)
    ensures BeganLast(ops, b, id)
    ensures Replay(ops)[id].current.producerSha == ops[b].producerSha && Replay(ops)[id].current.cacheKey == ops[b].cacheKey
    decreases |ops|
  {
    var n := |ops| - 1;
    if ops[n].Begin? && ops[n].trialId == id {
      b := n;
    } else {
      b := RecordNamesItsExecution(ops[..n], id);
    }
  }

  lemma {:induction false} FinishStands(ops: seq<Op>, id: string, j: nat)
    requires j < |ops| && Finishes(ops, j, id) && forall k | j < k < |ops| :: !(ops[k].Begin? && ops[k].trialId == id)
    ensures id in Replay(ops) && Replay(ops)[id].current.status == ops[j].status
    decreases |ops|
  {
    var n := |ops| - 1;
    assert ops[..|ops|] == ops;
    if j < n {
      assert ops[..n][..j] == ops[..j];
      FinishStands(ops[..n], id, j);
    }
  }

  lemma {:induction false} StoppedWasFinished(ops: seq<Op>, id: string, b: nat) returns (j: nat)
    requires id in Replay(ops) && BeganLast(ops, b, id) && Replay(ops)[id].current.status != Running
    ensures b < j < |ops| && Finishes(ops, j, id)
    decreases |ops|
  {
    var n := |ops| - 1;
    assert ops[..|ops|] == ops;
    if Finishes(ops, n, id) {
      j := n;
    } else {
      j := StoppedWasFinished(ops[..n], id, b);
      assert ops[..n][..j] == ops[..j];
    }
  }

  /** The trial is running exactly if its last execution was not finished, and has the status it was finished with. */
  lemma {:induction false} StatusIsOfLastFinish(ops: seq<Op>, id: string, b: nat)
    requires id in Replay(ops) && BeganLast(ops, b, id)
    ensures Replay(ops)[id].current.status == Running <==> forall j | b < j < |ops| :: !Finishes(ops, j, id)
    ensures forall j | b < j < |ops| && Finishes(ops, j, id) :: Replay(ops)[id].current.status == ops[j].status
  {
    if Replay(ops)[id].current.status != Running {
      var j := StoppedWasFinished(ops, id, b);
    }
    forall j | b < j < |ops| && Finishes(ops, j, id) ensures Replay(ops)[id].current.status == ops[j].status {
      FinishStands(ops, id, j);
    }
  }

  ghost predicate Unfinished(ops: seq<Op>, b: nat, id: string) {
    BeganLast(ops, b, id) && forall j | b < j < |ops| :: !Finishes(ops, j, id)
  }

  /**
   * After any operations a checkpoint is accepted exactly if it has a name and the trial's last
   * execution was not finished, and a finish exactly if it brings one of the four verdicts and the same
   * holds.
   */
  lemma {:induction false} AcceptedIff(ops: seq<Op>, op: Op)
    ensures op.Begin? ==> Accepted(Replay(ops), op)
    ensures op.Checkpoint? ==> (Accepted(Replay(ops), op) <==> op.name != "" && exists b :: Unfinished(ops, b, op.trialId))
    ensures op.Finish? ==>
              (Accepted(Replay(ops), op) <==>
                 op.status in {Pass, MetricFail, InfraFailed, Blocked} && exists b :: Unfinished(ops, b, op.trialId))
  {
    ReplayLineage(ops, op.trialId);
    if op.trialId in Replay(ops) {
      var b := RecordNamesItsExecution(ops, op.trialId);
      StatusIsOfLastFinish(ops, op.trialId, b);
      if Replay(ops)[op.trialId].current.status == Running {
        assert Unfinished(ops, b, op.trialId);
      }
    }
    if b: nat :| Unfinished(ops, b, op.trialId) {
      BegunIsStored(ops, b, op.trialId);
      StatusIsOfLastFinish(ops, op.trialId, b);
    }
  }

  lemma {:induction false} BegunIsStored(ops: seq<Op>, b: nat, id: string)
    requires b < |ops| && ops[b].Begin? && ops[b].trialId == id
    ensures id in Replay(ops)
    decreases |ops|
  {
    var n := |ops| - 1;
    if b < n {
      BegunIsStored(ops[..n], b, id);
    }
  }

  /** The payload is the last one brought since the execution began, by whichever operation. */
  lemma {:induction false} PayloadIsLastBrought(ops: seq<Op>, id: string) returns (j: nat)
    requires id in Replay(ops)
    ensures j < |ops| && BringsPayload(ops, j, id, Replay(ops)[id].current.payload)
    ensures forall k | j < k < |ops| :: BringsNone(ops, k, id)
    decreases |ops|
  {
    var n := |ops| - 1;
    var before := ops[..n];
    assert ops[..|ops|] == ops;
    if !BringsNone(ops, n, id) {
      j := n;
    } else {
      j := PayloadIsLastBrought(before, id);
      forall k | j <= k < n ensures before[..k] == ops[..k] && before[k] == ops[k] {
      }
      forall k | j < k < |ops| ensures BringsNone(ops, k, id) {
        assert k < n ==> BringsNone(before, k, id);
      }
    }
  }

  /** Every execution but the present one stands in the history as it was left, at its attempt number. */
  lemma {:induction false} HistoryKeepsExecutions(ops: seq<Op>, b: nat, id: string)
    requires b < |ops| && ops[b].Begin? && ops[b].trialId == id && id in Replay(ops[..b])
    ensures id in Replay(ops)
    ensures Replay(ops[..b])[id].history + [Replay(ops[..b])[id].current] <= Replay(ops)[id].history
    decreases |ops|
  {
    var n := |ops| - 1;
    assert ops[..|ops|] == ops;
    if b < n {
      assert ops[..n][..b] == ops[..b];
      HistoryKeepsExecutions(ops[..n], b, id);
    }
  }
}
