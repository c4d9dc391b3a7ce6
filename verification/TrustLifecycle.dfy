/**
 * The trust lifecycle of `bootstrap.py`: the encrypted store, the private metadata, the scanned and
 * pinned host keys, and every operation that rewrites them. What the network and the tools answer
 * is part of each operation; encryption and hashing are idealised as injective.
 */
module TrustLifecycle {
  import opened Prelude

  datatype Endpoint = Endpoint(host: string, port: int)

  datatype Bundle = Bundle(endpoint: Endpoint, username: string, password: string, bailianKey: string, langsmithKey: string)

  /** The shape rules for secrets that are regular expressions or Unicode tables in the source. */
  datatype Policy = Policy(hostSafe: string -> bool, userSafe: string -> bool, space: char -> bool)

  predicate ApiKeyShaped(p: Policy, key: string) {
    |key| >= 20 && forall i | 0 <= i < |key| :: !p.space(key[i])
  }

  /** `validate_bundle`. */
  predicate Shaped(p: Policy, b: Bundle) {
    && p.hostSafe(b.endpoint.host) && 1 <= b.endpoint.port <= 65535 && p.userSafe(b.username)
    && b.password != "" && '\r' !in b.password && '\n' !in b.password && '\0' !in b.password
    && ApiKeyShaped(p, b.bailianKey) && ApiKeyShaped(p, b.langsmithKey)
  }

  datatype Credential = ServerPassword | BailianKey | LangsmithKey
  datatype Capability = ModelGateway | TraceService
  datatype Verification = PendingLogin | VerifiedLogin | Deferred | VerifiedLive

  /** SHA-256 over `host:port`. */
  datatype EndpointDigest = EndpointDigest(endpoint: Endpoint)

  datatype Rotation = Rotation(reason: string, previous: EndpointDigest, current: EndpointDigest)

  datatype Metadata = Metadata(
    roundTripPassed: bool,
    accepted: map<Credential, bool>,
    verification: map<Credential, Verification>,
    hostKeyVerified: bool,
    sshKeyVerified: bool,
    capabilityMatch: bool,
    handoffDeleted: bool,
    rotations: seq<Rotation>)

  /** A line of a host-key scan: where it was scanned, and the key the network answered with. */
  datatype KeyLine = KeyLine(endpoint: Endpoint, key: string)
  datatype Fingerprint = Fingerprint(key: string)

  datatype Handoff = Absent | Malformed | Complete(bundle: Bundle)

  datatype State = State(
    handoff: Handoff,
    store: Option<Bundle>,
    metadata: Option<Metadata>,
    candidate: Option<KeyLine>,
    pinned: Option<KeyLine>)

  /**
   * One call, with what the tools, the operator and the network contribute to it. Calls that
   * write several files carry how many of those writes go through before one fails; a call whose
   * only write fails leaves the files as a refused one does.
   */
  datatype Op =
    | Migrate(tools: bool, roundTrips: bool, writes: nat)
    | Rotate(endpoint: Endpoint, username: string, password: string, reason: string, tools: bool, roundTrips: bool, writes: nat)
    | AcceptCredentials(tools: bool)
    | RecordLive(secret: Credential, capability: Capability)
    | CaptureHostKey(tools: bool, scanned: Option<string>)
    | AcceptHostKey(expected: Fingerprint, writes: nat)
    | InstallKey(tools: bool, passwordLogin: bool, installed: bool, keyLogin: bool)
    | Probe(tools: bool, first: Option<string>, second: Option<string>)
    | Finalize(tools: bool, writes: nat)

  // ---------------------------------------------------------------------------------------------
  // What each operation requires and writes.

  function Fresh(): Metadata {
    Metadata(true,
      map[ServerPassword := false, BailianKey := false, LangsmithKey := false],
      map[ServerPassword := PendingLogin, BailianKey := Deferred, LangsmithKey := Deferred],
      false, false, false, false, [])
  }

  function Owner(secret: Credential): Option<Capability> {
    match secret
    case LangsmithKey => Some(TraceService)
    case BailianKey => Some(ModelGateway)
    case ServerPassword => None
  }

  /** `load_secret_bundle`: the store is there, decrypts, and is shaped. */
  predicate Loads(p: Policy, s: State, tools: bool) {
    s.store.Some? && tools && Shaped(p, s.store.value)
  }

  /** `validate_migration`; the list of secret names is written once and never changed. */
  predicate Migrated(p: Policy, s: State, tools: bool) {
    Loads(p, s, tools) && s.metadata.Some? && s.metadata.value.roundTripPassed
  }

  /** Strict host-key checking lets SSH through only to an endpoint with a pinned line. */
  predicate KnownHost(store: Option<Bundle>, pinned: Option<KeyLine>) {
    store.Some? && pinned.Some? && pinned.value.endpoint == store.value.endpoint
  }

  predicate AcceptedIn(m: Metadata, secret: Credential) {
    secret in m.accepted && m.accepted[secret]
  }

  function Rotated(b: Bundle, op: Op): Bundle
    requires op.Rotate?
  {
    Bundle(op.endpoint, op.username, op.password, b.bailianKey, b.langsmithKey)
  }

  /** The call passes every check that comes before its first write. */
  predicate Begins(p: Policy, s: State, op: Op) {
    match op
    case Migrate(tools, _, _) =>
      s.store.None? && s.metadata.None? && s.handoff.Complete? && Shaped(p, s.handoff.bundle) && tools
    case Rotate(_, _, _, _, tools, roundTrips, _) =>
      s.metadata.Some? && s.metadata.value.roundTripPassed && Loads(p, s, tools)
      && Shaped(p, Rotated(s.store.value, op)) && roundTrips
    case AcceptCredentials(tools) => Migrated(p, s, tools)
    case RecordLive(secret, capability) =>
      Owner(secret) == Some(capability) && s.metadata.Some? && AcceptedIn(s.metadata.value, secret)
    case CaptureHostKey(tools, scanned) => Loads(p, s, tools) && scanned.Some?
    case AcceptHostKey(expected, _) => s.candidate.Some? && Fingerprint(s.candidate.value.key) == expected
    case InstallKey(tools, passwordLogin, installed, keyLogin) =>
      Migrated(p, s, tools) && s.metadata.value.hostKeyVerified && KnownHost(s.store, s.pinned) && passwordLogin && installed && keyLogin
    case Probe(tools, first, second) =>
      Migrated(p, s, tools) && s.metadata.value.hostKeyVerified && s.metadata.value.sshKeyVerified
      && KnownHost(s.store, s.pinned) && first.Some? && second.Some? && first == second
    case Finalize(tools, _) =>
      Migrated(p, s, tools)
      && AcceptedIn(s.metadata.value, ServerPassword) && AcceptedIn(s.metadata.value, BailianKey)
      && AcceptedIn(s.metadata.value, LangsmithKey)
      && ServerPassword in s.metadata.value.verification && s.metadata.value.verification[ServerPassword] == VerifiedLogin
      && s.metadata.value.hostKeyVerified && s.metadata.value.sshKeyVerified && s.handoff != Absent
  }

  /** The call returns, instead of raising. */
  predicate Succeeds(p: Policy, s: State, op: Op) {
    Begins(p, s, op) &&
    match op
    case Migrate(_, roundTrips, writes) => roundTrips && writes >= 2
    case Rotate(_, _, _, _, _, _, writes) => writes >= 4
    case AcceptHostKey(_, writes) => s.metadata.Some? && writes >= 2
    case Finalize(_, writes) => writes >= 2
    case _ => true
  }

  function RotatedMetadata(m: Metadata, previous: Endpoint, op: Op): Metadata
    requires op.Rotate?
  {
    m.(rotations := m.rotations + [Rotation(op.reason, EndpointDigest(previous), EndpointDigest(op.endpoint))],
    hostKeyVerified := false, sshKeyVerified := false, capabilityMatch := false,
    verification := m.verification[ServerPassword := PendingLogin])
  }

  function AcceptedMetadata(m: Metadata): Metadata {
    m.(accepted := map[ServerPassword := true, BailianKey := true, LangsmithKey := true],
    verification := map[ServerPassword := if m.sshKeyVerified then VerifiedLogin else PendingLogin,
                        BailianKey := Deferred, LangsmithKey := Deferred])
  }

  /** What the Bailian key falls back to when any key is recorded as live. */
  function BailianKept(m: Metadata): Verification {
    if BailianKey in m.verification && m.verification[BailianKey] == VerifiedLive then VerifiedLive else Deferred
  }

  function LiveMetadata(m: Metadata, secret: Credential): Metadata {
    m.(verification := m.verification[BailianKey := BailianKept(m)][secret := VerifiedLive])
  }

  /**
   * The state after a call. A migration writes the store, reads it back and writes the metadata; a
   * rotation writes the store, unlinks the pin and the candidate and writes the metadata; an
   * acceptance writes the pin, and the metadata if there is any; a finalization unlinks the handoff
   * first.
   */
  function After(p: Policy, s: State, op: Op): State {
    if !Begins(p, s, op) then s else
      match op
      case Migrate(_, roundTrips, writes) =>
        s.(store := if writes >= 1 then Some(s.handoff.bundle) else None,
        metadata := if roundTrips && writes >= 2 then Some(Fresh()) else None)
      case Rotate(_, _, _, _, _, _, writes) =>
        s.(store := if writes >= 1 then Some(Rotated(s.store.value, op)) else s.store,
        pinned := if writes >= 2 then None else s.pinned,
        candidate := if writes >= 3 then None else s.candidate,
        metadata := if writes >= 4 then Some(RotatedMetadata(s.metadata.value, s.store.value.endpoint, op)) else s.metadata)
      case AcceptCredentials(_) => s.(metadata := Some(AcceptedMetadata(s.metadata.value)))
      case RecordLive(secret, _) => s.(metadata := Some(LiveMetadata(s.metadata.value, secret)))
      case CaptureHostKey(_, scanned) => s.(candidate := Some(KeyLine(s.store.value.endpoint, scanned.value)))
      case AcceptHostKey(_, writes) =>
        s.(pinned := if writes >= 1 then s.candidate else s.pinned,
        metadata := if s.metadata.Some? && writes >= 2 then Some(s.metadata.value.(hostKeyVerified := true)) else s.metadata)
      case InstallKey(_, _, _, _) =>
        var m := s.metadata.value;
        s.(metadata := Some(m.(sshKeyVerified := true, verification := m.verification[ServerPassword := VerifiedLogin])))
      case Probe(_, _, _) => s.(metadata := Some(s.metadata.value.(capabilityMatch := true)))
      case Finalize(_, writes) =>
        s.(handoff := if writes >= 1 then Absent else s.handoff,
        metadata := if writes >= 2 then Some(s.metadata.value.(handoffDeleted := true)) else s.metadata)
  }

  // ---------------------------------------------------------------------------------------------
  // The private files, rewritten in place.

  class PrivateFiles {
    const policy: Policy
    var handoff: Handoff
    var store: Option<Bundle>
    var metadata: Option<Metadata>
    var candidate: Option<KeyLine>
    var pinned: Option<KeyLine>

    constructor (policy: Policy, handoff: Handoff)
      ensures this.policy == policy && Now() == State(handoff, None, None, None, None)
    {
      this.policy, this.handoff := policy, handoff;
      store, metadata, candidate, pinned := None, None, None, None;
    }

    ghost function Now(): State
      reads this
    {
      State(handoff, store, metadata, candidate, pinned)
    }

    method MigrateHandoff(tools: bool, roundTrips: bool, writes: nat) returns (ok: bool)
      modifies this
      ensures Now() == After(policy, old(Now()), Migrate(tools, roundTrips, writes))
      ensures ok == Succeeds(policy, old(Now()), Migrate(tools, roundTrips, writes))
    {
      if handoff == Absent || store.Some? || metadata.Some? {
        return false;
      }
      if !handoff.Complete? || !Shaped(policy, handoff.bundle) || !tools {
        return false;
      }
      if writes < 1 {
        return false;
      }
      store := Some(handoff.bundle);
      if !roundTrips || writes < 2 {
        return false;
      }
      metadata := Some(Fresh());
      return true;
    }

    method LoadSecretBundle(tools: bool) returns (bundle: Option<Bundle>)
      ensures bundle == if Loads(policy, Now(), tools) then store else None
    {
      bundle := if store.Some? && tools && Shaped(policy, store.value) then store else None;
    }

    method ValidateMigration(tools: bool) returns (m: Option<Metadata>)
      ensures m == if Migrated(policy, Now(), tools) then metadata else None
    {
      var bundle := LoadSecretBundle(tools);
      m := if bundle.Some? && metadata.Some? && metadata.value.roundTripPassed then metadata else None;
    }

    method RotateServerEndpoint(
      endpoint: Endpoint, username: string, password: string, reason: string, tools: bool, roundTrips: bool, writes: nat)
      returns (ok: bool)
      modifies this
      ensures Now() == After(policy, old(Now()), Rotate(endpoint, username, password, reason, tools, roundTrips, writes))
      ensures ok == Succeeds(policy, old(Now()), Rotate(endpoint, username, password, reason, tools, roundTrips, writes))
    {
      if metadata.None? || !metadata.value.roundTripPassed {
        return false;
      }
      var previous := LoadSecretBundle(tools);
      if previous.None? {
        return false;
      }
      var rotated := Bundle(endpoint, username, password, previous.value.bailianKey, previous.value.langsmithKey);
      if !Shaped(policy, rotated) || !roundTrips || writes < 1 {
        return false;
      }
      store := Some(rotated);
      if writes < 2 {
        return false;
      }
      pinned := None;
      if writes < 3 {
        return false;
      }
      candidate := None;
      if writes < 4 {
        return false;
      }
      var m := metadata.value;
      var history := m.rotations + [Rotation(reason, EndpointDigest(previous.value.endpoint), EndpointDigest(endpoint))];
      metadata := Some(m.(
        rotations := history, hostKeyVerified := false, sshKeyVerified := false, capabilityMatch := false,
        verification := m.verification[ServerPassword := PendingLogin]));
      return true;
    }

    method AcceptExistingCredentials(tools: bool) returns (ok: bool)
      modifies this
      ensures Now() == After(policy, old(Now()), AcceptCredentials(tools))
      ensures ok == Succeeds(policy, old(Now()), AcceptCredentials(tools))
    {
      var bundle := LoadSecretBundle(tools);
      if bundle.None? || metadata.None? || !metadata.value.roundTripPassed {
        return false;
      }
      metadata := Some(AcceptedMetadata(metadata.value));
      return true;
    }

    method RecordLiveApiVerification(secret: Credential, capability: Capability) returns (ok: bool)
      modifies this
      ensures Now() == After(policy, old(Now()), RecordLive(secret, capability))
      ensures ok == Succeeds(policy, old(Now()), RecordLive(secret, capability))
    {
      if Owner(secret) != Some(capability) || metadata.None? || !AcceptedIn(metadata.value, secret) {
        return false;
      }
      var m := metadata.value;
      var verification := m.verification;
      if BailianKey !in verification || verification[BailianKey] != VerifiedLive {
        verification := verification[BailianKey := Deferred];
      }
      assert verification == m.verification[BailianKey := BailianKept(m)];
      verification := verification[secret := VerifiedLive];
      metadata := Some(m.(verification := verification));
      return true;
    }

    method CaptureHostKeyCandidate(tools: bool, scanned: Option<string>) returns (fingerprint: Option<Fingerprint>)
      modifies this
      ensures Now() == After(policy, old(Now()), CaptureHostKey(tools, scanned))
      ensures fingerprint.Some? == Succeeds(policy, old(Now()), CaptureHostKey(tools, scanned))
      ensures fingerprint.Some? ==> fingerprint == Some(Fingerprint(scanned.value))
    {
      var bundle := LoadSecretBundle(tools);
      if bundle.None? || scanned.None? {
        return None;
      }
      candidate := Some(KeyLine(bundle.value.endpoint, scanned.value));
      return Some(Fingerprint(scanned.value));
    }

    method AcceptHostKeyCandidate(expected: Fingerprint, writes: nat) returns (ok: bool)
      modifies this
      ensures Now() == After(policy, old(Now()), AcceptHostKey(expected, writes))
      ensures ok == Succeeds(policy, old(Now()), AcceptHostKey(expected, writes))
    {
      if candidate.None? || Fingerprint(candidate.value.key) != expected || writes < 1 {
        return false;
      }
      pinned := candidate;
      if metadata.None? || writes < 2 {
        return false;
      }
      metadata := Some(metadata.value.(hostKeyVerified := true));
      return true;
    }

    method InstallAndVerifySshKey(tools: bool, passwordLogin: bool, installed: bool, keyLogin: bool) returns (ok: bool)
      modifies this
      ensures Now() == After(policy, old(Now()), InstallKey(tools, passwordLogin, installed, keyLogin))
      ensures ok == Succeeds(policy, old(Now()), InstallKey(tools, passwordLogin, installed, keyLogin))
    {
      var validated := ValidateMigration(tools);
      if validated.None? || !validated.value.hostKeyVerified || pinned.None? {
        return false;
      }
      if !KnownHost(store, pinned) || !passwordLogin || !installed || !keyLogin {
        return false;
      }
      var m := metadata.value;
      metadata := Some(m.(sshKeyVerified := true, verification := m.verification[ServerPassword := VerifiedLogin]));
      return true;
    }

    method RunCapabilityProbe(tools: bool, first: Option<string>, second: Option<string>) returns (report: Option<string>)
      modifies this
      ensures Now() == After(policy, old(Now()), Probe(tools, first, second))
      ensures report.Some? == Succeeds(policy, old(Now()), Probe(tools, first, second))
      ensures report.Some? ==> report == first && report == second
    {
      var validated := ValidateMigration(tools);
      if validated.None? || !validated.value.hostKeyVerified || !validated.value.sshKeyVerified {
        return None;
      }
      if !KnownHost(store, pinned) || first.None? || second.None? || first != second {
        return None;
      }
      metadata := Some(metadata.value.(capabilityMatch := true));
      return first;
    }

    method FinalizeHandoff(tools: bool, writes: nat) returns (ok: bool)
      modifies this
      ensures Now() == After(policy, old(Now()), Finalize(tools, writes))
      ensures ok == Succeeds(policy, old(Now()), Finalize(tools, writes))
    {
      var validated := ValidateMigration(tools);
      if validated.None? {
        return false;
      }
      var m := validated.value;
      if !AcceptedIn(m, ServerPassword) || !AcceptedIn(m, BailianKey) || !AcceptedIn(m, LangsmithKey) {
        return false;
      }
      if ServerPassword !in m.verification || m.verification[ServerPassword] != VerifiedLogin {
        return false;
      }
      if !m.hostKeyVerified || !m.sshKeyVerified || handoff == Absent || writes < 1 {
        return false;
      }
      handoff := Absent;
      if writes < 2 {
        return false;
      }
      metadata := Some(m.(handoffDeleted := true));
      return true;
    }
  }

  // ---------------------------------------------------------------------------------------------
  // What every sequence of operations keeps.

  function Replay(p: Policy, handoff: Handoff, ops: seq<Op>, n: nat): State
    requires n <= |ops|
  {
    if n == 0 then State(handoff, None, None, None, None) else After(p, Replay(p, handoff, ops, n - 1), ops[n - 1])
  }

  ghost predicate SucceededAt(p: Policy, handoff: Handoff, ops: seq<Op>, i: nat) {
    i < |ops| && Succeeds(p, Replay(p, handoff, ops, i), ops[i])
  }

  /** Evidence is only ever held together with what it rests on. */
  ghost predicate Evidenced(m: Metadata) {
    && (m.sshKeyVerified ==> m.hostKeyVerified)
    && (m.capabilityMatch ==> m.sshKeyVerified && m.hostKeyVerified)
    && ServerPassword in m.verification
    && m.verification[ServerPassword] == (if m.sshKeyVerified then VerifiedLogin else PendingLogin)
    && BailianKey in m.verification && m.verification[BailianKey] in {Deferred, VerifiedLive}
    && LangsmithKey in m.verification && m.verification[LangsmithKey] in {Deferred, VerifiedLive}
  }

  /** The stored bundle is shaped and carries the API keys of the handoff. */
  ghost predicate SoundStore(p: Policy, migrated: Bundle, stored: Bundle) {
    Shaped(p, stored) && stored.bailianKey == migrated.bailianKey && stored.langsmithKey == migrated.langsmithKey
  }

  /** What holds of the private files whichever writes fail, given the handoff they began with. */
  ghost predicate Sound(p: Policy, handoff: Handoff, s: State) {
    && (s.handoff == handoff || (s.handoff == Absent && s.metadata.Some?))
    && (s.store.Some? ==> handoff.Complete? && SoundStore(p, handoff.bundle, s.store.value))
    && (s.store.Some? && s.metadata.None? ==> s.store.value == handoff.bundle)
    && (s.metadata.Some? ==> s.store.Some? && s.metadata.value.roundTripPassed && Evidenced(s.metadata.value))
    && (s.metadata.Some? && s.metadata.value.handoffDeleted ==> s.handoff == Absent)
  }

  lemma AfterKeepsSound(p: Policy, handoff: Handoff, s: State, op: Op)
    requires Sound(p, handoff, s)
    ensures Sound(p, handoff, After(p, s, op))
  {
  }

  /**
   * Over every sequence of operations, whichever writes fail: evidence rests on what it needs, the
   * password counts as verified exactly with the SSH key, and the API keys are the migrated ones.
   */
  lemma {:induction false} EverySequenceIsSound(p: Policy, handoff: Handoff, ops: seq<Op>, n: nat)
    requires n <= |ops|
    ensures Sound(p, handoff, Replay(p, handoff, ops, n))
    decreases n
  {
    if n > 0 {
      EverySequenceIsSound(p, handoff, ops, n - 1);
      AfterKeepsSound(p, handoff, Replay(p, handoff, ops, n - 1), ops[n - 1]);
    }
  }

  // ---------------------------------------------------------------------------------------------
  // The key files and the rotation log, and the rotation that stops between its writes.

  /** Every host key on file was scanned at the stored endpoint, and a verified one is on file. */
  ghost predicate KeysSettled(s: State) {
    && (s.candidate.Some? ==> s.store.Some? && s.candidate.value.endpoint == s.store.value.endpoint)
    && (s.pinned.Some? ==> s.store.Some? && s.pinned.value.endpoint == s.store.value.endpoint)
    && (s.metadata.Some? && s.metadata.value.hostKeyVerified ==> s.pinned.Some?)
  }

  /** The rotation begins to write and does not finish. */
  predicate Tears(p: Policy, s: State, op: Op) {
    op.Rotate? && Begins(p, s, op) && 1 <= op.writes < 4
  }

  /** The rotation that begins in `s` goes to another endpoint. */
  predicate Moves(s: State, op: Op) {
    op.Rotate? && s.store.Some? && op.endpoint != s.store.value.endpoint
  }

  /** A torn rotation leaves a key of the endpoint it left, or a verified host key that is not on file. */
  predicate LeavesStale(s: State, op: Op)
    requires op.Rotate?
  {
    || (op.writes < 2 && s.pinned.Some? && Moves(s, op))
    || (op.writes < 3 && s.candidate.Some? && Moves(s, op))
    || (op.writes >= 2 && s.metadata.Some? && s.metadata.value.hostKeyVerified)
  }

  /** One call unsettles the key files exactly if it is a torn rotation that leaves them stale. */
  lemma KeysSettledStep(p: Policy, s: State, op: Op)
    requires KeysSettled(s) && (s.metadata.Some? ==> s.store.Some?)
    ensures KeysSettled(After(p, s, op)) <==> !(Tears(p, s, op) && LeavesStale(s, op))
  {
  }

  /** A rotation that finishes settles them, whatever was left behind before it. */
  lemma RotationSettles(p: Policy, s: State, op: Op)
    requires op.Rotate? && Succeeds(p, s, op)
    ensures KeysSettled(After(p, s, op))
  {
  }

  ghost predicate TornAt(p: Policy, handoff: Handoff, ops: seq<Op>, i: nat) {
    i < |ops| && Tears(p, Replay(p, handoff, ops, i), ops[i])
  }

  ghost predicate RotatedAt(p: Policy, handoff: Handoff, ops: seq<Op>, i: nat) {
    SucceededAt(p, handoff, ops, i) && ops[i].Rotate?
  }

  /** Some rotation finished after operation `i` and before the `n`-th. */
  ghost predicate RotatedSince(p: Policy, handoff: Handoff, ops: seq<Op>, i: nat, n: nat) {
    exists j :: i < j < n && RotatedAt(p, handoff, ops, j)
  }

  /** Every torn rotation before the `n`-th operation was followed by one that finished. */
  ghost predicate Mended(p: Policy, handoff: Handoff, ops: seq<Op>, n: nat) {
    forall i | 0 <= i < n && TornAt(p, handoff, ops, i) :: RotatedSince(p, handoff, ops, i, n)
  }

  /** When every torn rotation was repeated until one finished, the key files are settled. */
  lemma {:induction false} MendedKeysAreSettled(p: Policy, handoff: Handoff, ops: seq<Op>, n: nat)
    requires n <= |ops| && Mended(p, handoff, ops, n)
    ensures KeysSettled(Replay(p, handoff, ops, n))
    decreases n
  {
    if n > 0 {
      var s, op := Replay(p, handoff, ops, n - 1), ops[n - 1];
      if RotatedAt(p, handoff, ops, n - 1) {
        RotationSettles(p, s, op);
      } else {
        assert !TornAt(p, handoff, ops, n - 1) by {
          assert !RotatedSince(p, handoff, ops, n - 1, n);
        }
        forall i | 0 <= i < n - 1 && TornAt(p, handoff, ops, i) ensures RotatedSince(p, handoff, ops, i, n - 1) {
          assert RotatedSince(p, handoff, ops, i, n);
        }
        MendedKeysAreSettled(p, handoff, ops, n - 1);
        EverySequenceIsSound(p, handoff, ops, n - 1);
        KeysSettledStep(p, s, op);
      }
    }
  }

  /** The log starts at the migrated endpoint and each entry where the one before it ends. */
  ghost predicate Linked(rotations: seq<Rotation>, first: Endpoint) {
    && (rotations != [] ==> rotations[0].previous == EndpointDigest(first))
    && forall i | 0 < i < |rotations| :: rotations[i].previous == rotations[i - 1].current
  }

  /** The endpoint the log ends at. */
  function LogEnd(rotations: seq<Rotation>, first: Endpoint): EndpointDigest {
    if rotations == [] then EndpointDigest(first) else rotations[|rotations| - 1].current
  }

  /** The stored endpoint is where the log ends. */
  ghost predicate OnLog(migrated: Bundle, s: State) {
    s.metadata.Some? ==> s.store.Some? && LogEnd(s.metadata.value.rotations, migrated.endpoint) == EndpointDigest(s.store.value.endpoint)
  }

  ghost predicate LinkedLog(migrated: Bundle, s: State) {
    s.metadata.Some? ==> Linked(s.metadata.value.rotations, migrated.endpoint)
  }

  /**
   * One call takes the store off its log exactly if it is a torn rotation to another endpoint, and
   * only a rotation that finishes off the log breaks the log.
   */
  lemma {:induction false} LogStep(p: Policy, handoff: Handoff, s: State, op: Op)
    requires Sound(p, handoff, s) && handoff.Complete?
    ensures OnLog(handoff.bundle, s) ==> (OnLog(handoff.bundle, After(p, s, op)) <==> !(Tears(p, s, op) && Moves(s, op)))
    ensures LinkedLog(handoff.bundle, s) ==>
              (LinkedLog(handoff.bundle, After(p, s, op)) <==> !(op.Rotate? && Succeeds(p, s, op) && !OnLog(handoff.bundle, s)))
  {
    if op.Rotate? && Succeeds(p, s, op) {
      var log := s.metadata.value.rotations;
      var longer := After(p, s, op).metadata.value.rotations;
      assert longer[..|log|] == log;
      assert longer[|log|].previous == EndpointDigest(s.store.value.endpoint);
      if log != [] {
        assert longer[|log| - 1] == log[|log| - 1];
      }
    }
  }

  lemma {:induction false} LongerLogLinked(log: seq<Rotation>, longer: seq<Rotation>, first: Endpoint)
    requires log <= longer && Linked(longer, first)
    ensures Linked(log, first)
  {
    forall i | 0 < i < |log| ensures log[i].previous == log[i - 1].current {
      assert longer[i].previous == longer[i - 1].current;
    }
  }

  /** No call repairs a log once it is broken. */
  lemma {:induction false} BrokenLogStays(p: Policy, migrated: Bundle, s: State, op: Op)
    requires !LinkedLog(migrated, s)
    ensures !LinkedLog(migrated, After(p, s, op))
  {
    var log, longer := s.metadata.value.rotations, After(p, s, op).metadata.value.rotations;
    if Linked(longer, migrated.endpoint) {
      LongerLogLinked(log, longer, migrated.endpoint);
    }
  }

  /** No rotation finished while the store was off its log. */
  ghost predicate RotatedOnLog(p: Policy, handoff: Handoff, ops: seq<Op>, n: nat)
    requires handoff.Complete? && n <= |ops|
  {
    forall i | 0 <= i < n && RotatedAt(p, handoff, ops, i) :: OnLog(handoff.bundle, Replay(p, handoff, ops, i))
  }

  /**
   * Over every sequence the log is an unbroken chain from the migrated endpoint exactly if no
   * rotation finished while a torn one to another endpoint was unlogged.
   */
  lemma {:induction false} LogIsLinkedIff(p: Policy, handoff: Handoff, ops: seq<Op>, n: nat)
    requires n <= |ops| && handoff.Complete?
    ensures LinkedLog(handoff.bundle, Replay(p, handoff, ops, n)) <==> RotatedOnLog(p, handoff, ops, n)
    decreases n
  {
    if n > 0 {
      var s, op := Replay(p, handoff, ops, n - 1), ops[n - 1];
      LogIsLinkedIff(p, handoff, ops, n - 1);
      EverySequenceIsSound(p, handoff, ops, n - 1);
      if LinkedLog(handoff.bundle, s) {
        LogStep(p, handoff, s, op);
        if op.Rotate? && Succeeds(p, s, op) {
          assert RotatedAt(p, handoff, ops, n - 1);
        }
      } else {
        BrokenLogStays(p, handoff.bundle, s, op);
        assert !RotatedOnLog(p, handoff, ops, n);
      }
    }
  }

  /** Without a torn move the log is an unbroken chain from the migrated to the stored endpoint. */
  lemma {:induction false} UntornLogIsComplete(p: Policy, handoff: Handoff, ops: seq<Op>, n: nat)
    requires n <= |ops| && handoff.Complete?
    requires forall i | 0 <= i < n && TornAt(p, handoff, ops, i) :: !Moves(Replay(p, handoff, ops, i), ops[i])
    ensures OnLog(handoff.bundle, Replay(p, handoff, ops, n)) && LinkedLog(handoff.bundle, Replay(p, handoff, ops, n))
    decreases n
  {
    if n > 0 {
      UntornLogIsComplete(p, handoff, ops, n - 1);
      EverySequenceIsSound(p, handoff, ops, n - 1);
      assert TornAt(p, handoff, ops, n - 1) ==> !Moves(Replay(p, handoff, ops, n - 1), ops[n - 1]);
      LogStep(p, handoff, Replay(p, handoff, ops, n - 1), ops[n - 1]);
    }
  }

  /** The successful rotations among the first `n` operations. */
  function Rotations(p: Policy, handoff: Handoff, ops: seq<Op>, n: nat): nat
    requires n <= |ops|
  {
    if n == 0 then 0 else
      Rotations(p, handoff, ops, n - 1) + if ops[n - 1].Rotate? && Succeeds(p, Replay(p, handoff, ops, n - 1), ops[n - 1]) then 1 else 0
  }

  function Logged(s: State): nat {
    if s.metadata.Some? then |s.metadata.value.rotations| else 0
  }

  lemma LoggedStep(p: Policy, s: State, op: Op, after: State)
    requires after == After(p, s, op)
    ensures Logged(after) == Logged(s) + if op.Rotate? && Succeeds(p, s, op) then 1 else 0
  {
  }

  /** The log has one entry for each rotation that succeeded. */
  lemma {:induction false} EveryRotationIsLogged(p: Policy, handoff: Handoff, ops: seq<Op>, n: nat)
    requires n <= |ops|
    ensures Logged(Replay(p, handoff, ops, n)) == Rotations(p, handoff, ops, n)
    decreases n
  {
    if n > 0 {
      EveryRotationIsLogged(p, handoff, ops, n - 1);
      LoggedStep(p, Replay(p, handoff, ops, n - 1), ops[n - 1], Replay(p, handoff, ops, n));
    }
  }

  /**
   * The failing input: a verified host is rotated away and the call stops after its first write.
   * The store then names another endpoint under all the evidence of the one before, which SSH no
   * longer reaches. The repeated rotation settles the key files, but its entry in the log starts
   * where it ends, and the move is missing for good.
   */
  lemma {:induction false} TornRotationKeepsOldEvidence(p: Policy, bundle: Bundle, endpoint: Endpoint, key: string)
    requires Shaped(p, bundle) && Shaped(p, bundle.(endpoint := endpoint)) && endpoint != bundle.endpoint
    ensures
      var target := bundle.(endpoint := endpoint);
      var ops := Onboarding(key) + [RotationTo(target, 1), RotationTo(target, 4)];
      var torn := Replay(p, Complete(bundle), ops, 5);
      && torn.store == Some(target) && torn.pinned == Some(KeyLine(bundle.endpoint, key))
      && torn.metadata.Some? && torn.metadata.value.sshKeyVerified
      && !KeysSettled(torn) && !KnownHost(torn.store, torn.pinned)
      && KeysSettled(Replay(p, Complete(bundle), ops, 6)) && !LinkedLog(bundle, Replay(p, Complete(bundle), ops, 6))
  {
    var target := bundle.(endpoint := endpoint);
    var ops := Onboarding(key) + [RotationTo(target, 1), RotationTo(target, 4)];
    OnboardingEnds(p, bundle, key, ops);
    var before := Replay(p, Complete(bundle), ops, 4);
    var torn := Replay(p, Complete(bundle), ops, 5);
    assert torn == After(p, before, RotationTo(target, 1));
    var done := Replay(p, Complete(bundle), ops, 6);
    assert done == After(p, torn, RotationTo(target, 4));
    assert done.metadata.value.rotations[0].previous == EndpointDigest(endpoint);
  }

  /** Migration, scan, confirmation and installation, all of them successful. */
  function Onboarding(key: string): (ops: seq<Op>)
    ensures |ops| == 4
  {
    [Migrate(true, true, 2), CaptureHostKey(true, Some(key)), AcceptHostKey(Fingerprint(key), 2), InstallKey(true, true, true, true)]
  }

  function RotationTo(target: Bundle, writes: nat): Op {
    Rotate(target.endpoint, target.username, target.password, "", true, true, writes)
  }

  lemma {:induction false} OnboardingEnds(p: Policy, bundle: Bundle, key: string, ops: seq<Op>)
    requires Shaped(p, bundle) && Onboarding(key) <= ops
    ensures
      var s := Replay(p, Complete(bundle), ops, 4);
      var line := Some(KeyLine(bundle.endpoint, key));
      s == State(Complete(bundle), Some(bundle), Some(Fresh().(hostKeyVerified := true, sshKeyVerified := true,
      verification := Fresh().verification[ServerPassword := VerifiedLogin])), line, line)
    ensures SucceededAt(p, Complete(bundle), ops, 3)
  {
    var handoff := Complete(bundle);
    assert forall i | 0 <= i < 4 :: ops[i] == Onboarding(key)[i];
    var one := Replay(p, handoff, ops, 1);
    assert one == After(p, Replay(p, handoff, ops, 0), ops[0]);
    assert one == State(handoff, Some(bundle), Some(Fresh()), None, None);
    var two := Replay(p, handoff, ops, 2);
    assert two == After(p, one, ops[1]);
    var three := Replay(p, handoff, ops, 3);
    assert three == After(p, two, ops[2]);
    assert Replay(p, handoff, ops, 4) == After(p, three, ops[3]);
  }

  // ---------------------------------------------------------------------------------------------
  // Evidence is earned anew after each rotation, in order.

  /** Among operations `i` to `n`, no rotation finished. */
  ghost predicate NotRotated(p: Policy, handoff: Handoff, ops: seq<Op>, i: nat, n: nat) {
    forall k | i <= k < n :: !RotatedAt(p, handoff, ops, k)
  }

  /** What a verified flag after one operation says about the state before it. */
  lemma FlagsBefore(p: Policy, s: State, op: Op, after: State)
    requires after == After(p, s, op) && after.metadata.Some?
    ensures after.metadata.value.hostKeyVerified ==>
              (op.AcceptHostKey? && Succeeds(p, s, op))
              || (s.metadata.Some? && s.metadata.value.hostKeyVerified && !(op.Rotate? && Succeeds(p, s, op)))
    ensures after.metadata.value.sshKeyVerified ==>
              (op.InstallKey? && Succeeds(p, s, op) && s.metadata.Some? && s.metadata.value.hostKeyVerified)
              || (s.metadata.Some? && s.metadata.value.sshKeyVerified && !(op.Rotate? && Succeeds(p, s, op)))
    ensures after.metadata.value.capabilityMatch ==>
              (op.Probe? && Succeeds(p, s, op) && s.metadata.Some? && s.metadata.value.sshKeyVerified)
              || (s.metadata.Some? && s.metadata.value.capabilityMatch && !(op.Rotate? && Succeeds(p, s, op)))
  {
  }

  /**
   * A verified host key was confirmed by the operator, and no rotation has finished since. What is
   * pinned is what the last operation since then that touched the pin left: the key it confirmed, or
   * nothing.
   */
  lemma {:induction false} HostKeyWasConfirmed(p: Policy, handoff: Handoff, ops: seq<Op>, n: nat) returns (i: nat)
    requires n <= |ops| && Replay(p, handoff, ops, n).metadata.Some?
    requires Replay(p, handoff, ops, n).metadata.value.hostKeyVerified
    ensures i < n && ops[i].AcceptHostKey? && SucceededAt(p, handoff, ops, i) && NotRotated(p, handoff, ops, i, n)
    ensures LastPin(p, handoff, ops, i, n) == Some(PinnedPrint(Replay(p, handoff, ops, n)))
    decreases n
  {
    i := LastSuccessfulConfirmation(p, handoff, ops, n);
    SomePin(p, handoff, ops, i, n);
    PinIsLast(p, handoff, ops, i, n);
  }

  lemma {:induction false} LastSuccessfulConfirmation(p: Policy, handoff: Handoff, ops: seq<Op>, n: nat) returns (i: nat)
    requires n <= |ops| && Replay(p, handoff, ops, n).metadata.Some?
    requires Replay(p, handoff, ops, n).metadata.value.hostKeyVerified
    ensures i < n && ops[i].AcceptHostKey? && SucceededAt(p, handoff, ops, i) && NotRotated(p, handoff, ops, i, n)
    decreases n
  {
    var s, op := Replay(p, handoff, ops, n - 1), ops[n - 1];
    FlagsBefore(p, s, op, Replay(p, handoff, ops, n));
    if op.AcceptHostKey? && Succeeds(p, s, op) {
      i := n - 1;
    } else {
      i := LastSuccessfulConfirmation(p, handoff, ops, n - 1);
    }
  }

  lemma {:induction false} SomePin(p: Policy, handoff: Handoff, ops: seq<Op>, i: nat, n: nat)
    requires i < n <= |ops| && PinnedAt(p, handoff, ops, i)
    ensures LastPin(p, handoff, ops, i, n).Some?
    decreases n
  {
    if i < n - 1 {
      SomePin(p, handoff, ops, i, n - 1);
    }
  }

  /** A pinned key was confirmed by the operator, as the last one, whichever writes failed. */
  lemma {:induction false} PinWasConfirmed(p: Policy, handoff: Handoff, ops: seq<Op>, n: nat) returns (i: nat)
    requires n <= |ops| && Replay(p, handoff, ops, n).pinned.Some?
    ensures i < n && PinnedAt(p, handoff, ops, i) && PinnedPrint(Replay(p, handoff, ops, n)) == Some(ops[i].expected)
    ensures forall k | i < k < n :: !PinnedAt(p, handoff, ops, k)
    decreases n
  {
    if PinnedAt(p, handoff, ops, n - 1) {
      i := n - 1;
    } else {
      i := PinWasConfirmed(p, handoff, ops, n - 1);
    }
  }

  /**
   * A verified SSH key was installed at `j`, the last installation there was, after a confirmation
   * at `i`, and no rotation has finished since that confirmation.
   */
  lemma {:induction false} SshKeyWasInstalled(p: Policy, handoff: Handoff, ops: seq<Op>, n: nat) returns (i: nat, j: nat)
    requires n <= |ops| && Replay(p, handoff, ops, n).metadata.Some?
    requires Replay(p, handoff, ops, n).metadata.value.sshKeyVerified
    ensures i < j < n && ops[i].AcceptHostKey? && ops[j].InstallKey?
    ensures SucceededAt(p, handoff, ops, i) && SucceededAt(p, handoff, ops, j) && NotRotated(p, handoff, ops, i, n)
    ensures forall k | j < k < n && SucceededAt(p, handoff, ops, k) :: !ops[k].InstallKey?
    decreases n
  {
    var s, op := Replay(p, handoff, ops, n - 1), ops[n - 1];
    FlagsBefore(p, s, op, Replay(p, handoff, ops, n));
    if op.InstallKey? && Succeeds(p, s, op) {
      j := n - 1;
      i := LastSuccessfulConfirmation(p, handoff, ops, n - 1);
    } else {
      i, j := SshKeyWasInstalled(p, handoff, ops, n - 1);
    }
  }

  /**
   * A capability match was probed at `k`, the last probe that matched, after an installation at `j`
   * after a confirmation at `i`: nothing is inherited across a rotation that finished.
   */
  lemma {:induction false} CapabilityWasProbed(p: Policy, handoff: Handoff, ops: seq<Op>, n: nat) returns (i: nat, j: nat, k: nat)
    requires n <= |ops| && Replay(p, handoff, ops, n).metadata.Some?
    requires Replay(p, handoff, ops, n).metadata.value.capabilityMatch
    ensures i < j < k < n && ops[i].AcceptHostKey? && ops[j].InstallKey? && ops[k].Probe?
    ensures SucceededAt(p, handoff, ops, i) && SucceededAt(p, handoff, ops, j) && SucceededAt(p, handoff, ops, k)
    ensures NotRotated(p, handoff, ops, i, n)
    ensures forall l | k < l < n && SucceededAt(p, handoff, ops, l) :: !ops[l].Probe?
    decreases n
  {
    var s, op := Replay(p, handoff, ops, n - 1), ops[n - 1];
    FlagsBefore(p, s, op, Replay(p, handoff, ops, n));
    if op.Probe? && Succeeds(p, s, op) {
      k := n - 1;
      i, j := SshKeyWasInstalled(p, handoff, ops, n - 1);
    } else {
      i, j, k := CapabilityWasProbed(p, handoff, ops, n - 1);
    }
  }

  // ---------------------------------------------------------------------------------------------
  // Which server and which key the evidence was earned for.

  /** What a login is made with: evidence of one server is none of another, nor of another password. */
  datatype Server = Server(endpoint: Endpoint, username: string, password: string)

  function StoredServer(s: State): Option<Server> {
    if s.store.Some? then Some(Server(s.store.value.endpoint, s.store.value.username, s.store.value.password)) else None
  }

  /** The fingerprint of the pinned key. */
  function PinnedPrint(s: State): Option<Fingerprint> {
    if s.pinned.Some? then Some(Fingerprint(s.pinned.value.key)) else None
  }

  /** The operation wrote the pin. */
  ghost predicate PinnedAt(p: Policy, handoff: Handoff, ops: seq<Op>, i: nat) {
    i < |ops| && ops[i].AcceptHostKey? && Begins(p, Replay(p, handoff, ops, i), ops[i]) && ops[i].writes >= 1
  }

  /** The operation is a rotation that got at least as far as this write. */
  ghost predicate RotatesTo(p: Policy, handoff: Handoff, ops: seq<Op>, i: nat, write: nat) {
    i < |ops| && ops[i].Rotate? && Begins(p, Replay(p, handoff, ops, i), ops[i]) && ops[i].writes >= write
  }

  /** The server written by the last rotation among operations `i` to `n` that changed the store. */
  ghost function LastServer(p: Policy, handoff: Handoff, ops: seq<Op>, i: nat, n: nat): Option<Server>
    requires n <= |ops|
    decreases n
  {
    if n <= i then None
    else if RotatesTo(p, handoff, ops, n - 1, 1) then Some(Server(ops[n - 1].endpoint, ops[n - 1].username, ops[n - 1].password))
    else LastServer(p, handoff, ops, i, n - 1)
  }

  /** What the last operation among `i` to `n` that touched the pin left: a confirmed key, or nothing. */
  ghost function LastPin(p: Policy, handoff: Handoff, ops: seq<Op>, i: nat, n: nat): Option<Option<Fingerprint>>
    requires n <= |ops|
    decreases n
  {
    if n <= i then None
    else if PinnedAt(p, handoff, ops, n - 1) then Some(Some(ops[n - 1].expected))
    else if RotatesTo(p, handoff, ops, n - 1, 2) then Some(None)
    else LastPin(p, handoff, ops, i, n - 1)
  }

  lemma PinStep(p: Policy, s: State, op: Op, after: State)
    requires after == After(p, s, op)
    ensures PinnedPrint(after) ==
            if op.AcceptHostKey? && Begins(p, s, op) && op.writes >= 1 then Some(op.expected)
            else if op.Rotate? && Begins(p, s, op) && op.writes >= 2 then None
            else PinnedPrint(s)
  {
  }

  lemma ServerStep(p: Policy, s: State, op: Op, after: State)
    requires after == After(p, s, op) && s.store.Some?
    ensures StoredServer(after) ==
            if op.Rotate? && Begins(p, s, op) && op.writes >= 1 then Some(Server(op.endpoint, op.username, op.password)) else StoredServer(s)
  {
  }

  lemma {:induction false} PinIsLast(p: Policy, handoff: Handoff, ops: seq<Op>, i: nat, n: nat)
    requires i <= n <= |ops|
    ensures PinnedPrint(Replay(p, handoff, ops, n)) ==
            if LastPin(p, handoff, ops, i, n).Some? then LastPin(p, handoff, ops, i, n).value else PinnedPrint(Replay(p, handoff, ops, i))
    decreases n
  {
    if i < n {
      PinIsLast(p, handoff, ops, i, n - 1);
      PinStep(p, Replay(p, handoff, ops, n - 1), ops[n - 1], Replay(p, handoff, ops, n));
    }
  }

  lemma {:induction false} ServerIsLast(p: Policy, handoff: Handoff, ops: seq<Op>, i: nat, n: nat)
    requires i <= n <= |ops| && Replay(p, handoff, ops, i).store.Some?
    ensures Replay(p, handoff, ops, n).store.Some?
    ensures StoredServer(Replay(p, handoff, ops, n)) ==
            if LastServer(p, handoff, ops, i, n).Some? then LastServer(p, handoff, ops, i, n) else StoredServer(Replay(p, handoff, ops, i))
    decreases n
  {
    if i < n {
      ServerIsLast(p, handoff, ops, i, n - 1);
      ServerStep(p, Replay(p, handoff, ops, n - 1), ops[n - 1], Replay(p, handoff, ops, n));
    }
  }

  /** What was shown at operation `j` holds for the server stored and the key pinned before the `n`-th. */
  ghost predicate ShownForPresent(p: Policy, handoff: Handoff, ops: seq<Op>, j: nat, n: nat)
    requires j <= n <= |ops|
  {
    && StoredServer(Replay(p, handoff, ops, n)) == StoredServer(Replay(p, handoff, ops, j))
    && PinnedPrint(Replay(p, handoff, ops, n)) == PinnedPrint(Replay(p, handoff, ops, j))
  }

  /** No rotation changed the store since, or the last one wrote the same server; and likewise for the pin. */
  ghost predicate Unchanged(p: Policy, handoff: Handoff, ops: seq<Op>, j: nat, n: nat)
    requires j <= n <= |ops|
  {
    && LastServer(p, handoff, ops, j, n) in {None, StoredServer(Replay(p, handoff, ops, j))}
    && LastPin(p, handoff, ops, j, n) in {None, Some(PinnedPrint(Replay(p, handoff, ops, j)))}
  }

  lemma {:induction false} ShownForPresentIff(p: Policy, handoff: Handoff, ops: seq<Op>, j: nat, n: nat)
    requires j <= n <= |ops| && Replay(p, handoff, ops, j).store.Some?
    ensures ShownForPresent(p, handoff, ops, j, n) <==> Unchanged(p, handoff, ops, j, n)
  {
    ServerIsLast(p, handoff, ops, j, n);
    PinIsLast(p, handoff, ops, j, n);
  }

  /**
   * Over every sequence, torn rotations included: SSH evidence, and with it the password's, is that of
   * the last installation, made with the server stored then and under the key pinned for it then. It
   * is evidence for the server stored and the key pinned now if and only if the last rotation since
   * that changed the store wrote the same endpoint, username and password, and the last operation
   * since that touched the pin confirmed the same key.
   */
  lemma {:induction false} SshEvidenceIsForServerIff(p: Policy, handoff: Handoff, ops: seq<Op>, n: nat) returns (j: nat)
    requires n <= |ops| && Replay(p, handoff, ops, n).metadata.Some?
    requires Replay(p, handoff, ops, n).metadata.value.sshKeyVerified
    ensures j < n && ops[j].InstallKey? && SucceededAt(p, handoff, ops, j)
    ensures KnownHost(Replay(p, handoff, ops, j).store, Replay(p, handoff, ops, j).pinned)
    ensures forall k | j < k < n && SucceededAt(p, handoff, ops, k) :: !ops[k].InstallKey?
    ensures var verification := Replay(p, handoff, ops, n).metadata.value.verification;
            ServerPassword in verification && verification[ServerPassword] == VerifiedLogin
    ensures ShownForPresent(p, handoff, ops, j, n) <==> Unchanged(p, handoff, ops, j, n)
  {
    var i;
    i, j := SshKeyWasInstalled(p, handoff, ops, n);
    EverySequenceIsSound(p, handoff, ops, n);
    ShownForPresentIff(p, handoff, ops, j, n);
  }

  /** The same for a capability match and the last matching probe. */
  lemma {:induction false} CapabilityIsForServerIff(p: Policy, handoff: Handoff, ops: seq<Op>, n: nat) returns (k: nat)
    requires n <= |ops| && Replay(p, handoff, ops, n).metadata.Some?
    requires Replay(p, handoff, ops, n).metadata.value.capabilityMatch
    ensures k < n && ops[k].Probe? && SucceededAt(p, handoff, ops, k)
    ensures KnownHost(Replay(p, handoff, ops, k).store, Replay(p, handoff, ops, k).pinned)
    ensures forall l | k < l < n && SucceededAt(p, handoff, ops, l) :: !ops[l].Probe?
    ensures ShownForPresent(p, handoff, ops, k, n) <==> Unchanged(p, handoff, ops, k, n)
  {
    var i, j;
    i, j, k := CapabilityWasProbed(p, handoff, ops, n);
    ShownForPresentIff(p, handoff, ops, k, n);
  }

  lemma {:induction false} NoneWritten(p: Policy, handoff: Handoff, ops: seq<Op>, j: nat, n: nat)
    requires n <= |ops| && forall k | j <= k < n :: !RotatesTo(p, handoff, ops, k, 1)
    ensures LastServer(p, handoff, ops, j, n).None?
    decreases n
  {
    if j < n {
      NoneWritten(p, handoff, ops, j, n - 1);
    }
  }

  /** When every torn rotation was repeated until one finished, SSH evidence is for the stored server. */
  lemma {:induction false} MendedEvidenceIsForServer(p: Policy, handoff: Handoff, ops: seq<Op>, n: nat) returns (j: nat)
    requires n <= |ops| && Replay(p, handoff, ops, n).metadata.Some? && Mended(p, handoff, ops, n)
    requires Replay(p, handoff, ops, n).metadata.value.sshKeyVerified
    ensures j < n && ops[j].InstallKey? && SucceededAt(p, handoff, ops, j)
    ensures StoredServer(Replay(p, handoff, ops, n)) == StoredServer(Replay(p, handoff, ops, j))
  {
    var i;
    i, j := SshKeyWasInstalled(p, handoff, ops, n);
    forall k | j <= k < n ensures !RotatesTo(p, handoff, ops, k, 1) {
      assert !RotatedAt(p, handoff, ops, k);
      if RotatesTo(p, handoff, ops, k, 1) {
        assert TornAt(p, handoff, ops, k);
      }
    }
    NoneWritten(p, handoff, ops, j, n);
    ServerIsLast(p, handoff, ops, j, n);
  }

  /** No operation after `i` and before the `n`-th wrote or dropped the candidate. */
  ghost predicate CandidateKept(p: Policy, handoff: Handoff, ops: seq<Op>, i: nat, n: nat) {
    forall k | i < k < n ::
      && !(SucceededAt(p, handoff, ops, k) && ops[k].CaptureHostKey?)
      && !RotatesTo(p, handoff, ops, k, 3)
  }

  /** A candidate was scanned at the endpoint stored then, which is the one stored now if the last store-writing rotation since says so. */
  lemma {:induction false} CandidateIsForServerIff(p: Policy, handoff: Handoff, ops: seq<Op>, n: nat) returns (i: nat)
    requires n <= |ops| && Replay(p, handoff, ops, n).candidate.Some?
    ensures i < n && ops[i].CaptureHostKey? && SucceededAt(p, handoff, ops, i) && CandidateKept(p, handoff, ops, i, n)
    ensures Replay(p, handoff, ops, i).store.Some? && Replay(p, handoff, ops, n).store.Some?
    ensures
      var scanned, last := Replay(p, handoff, ops, i).store.value.endpoint, LastServer(p, handoff, ops, i, n);
      && Replay(p, handoff, ops, n).candidate == Some(KeyLine(scanned, ops[i].scanned.value))
      && (scanned == Replay(p, handoff, ops, n).store.value.endpoint <==> last.None? || last.value.endpoint == scanned)
  {
    i := CandidateWasScanned(p, handoff, ops, n);
    ServerIsLast(p, handoff, ops, i, n);
  }

  lemma {:induction false} CandidateWasScanned(p: Policy, handoff: Handoff, ops: seq<Op>, n: nat) returns (i: nat)
    requires n <= |ops| && Replay(p, handoff, ops, n).candidate.Some?
    ensures i < n && ops[i].CaptureHostKey? && SucceededAt(p, handoff, ops, i) && CandidateKept(p, handoff, ops, i, n)
    ensures Replay(p, handoff, ops, i).store.Some?
    ensures Replay(p, handoff, ops, n).candidate == Some(KeyLine(Replay(p, handoff, ops, i).store.value.endpoint, ops[i].scanned.value))
    decreases n
  {
    if SucceededAt(p, handoff, ops, n - 1) && ops[n - 1].CaptureHostKey? {
      i := n - 1;
    } else {
      i := CandidateWasScanned(p, handoff, ops, n - 1);
    }
  }

  /** And so for the pin, which was the candidate when it was confirmed. */
  lemma {:induction false} PinIsForServerIff(p: Policy, handoff: Handoff, ops: seq<Op>, n: nat) returns (i: nat, j: nat)
    requires n <= |ops| && Replay(p, handoff, ops, n).pinned.Some?
    ensures i < j < n && PinnedAt(p, handoff, ops, j) && (forall k | j < k < n :: !PinnedAt(p, handoff, ops, k))
    ensures ops[i].CaptureHostKey? && SucceededAt(p, handoff, ops, i) && CandidateKept(p, handoff, ops, i, j)
    ensures Replay(p, handoff, ops, i).store.Some? && Replay(p, handoff, ops, n).store.Some?
    ensures
      var scanned, last := Replay(p, handoff, ops, i).store.value.endpoint, LastServer(p, handoff, ops, i, n);
      && Replay(p, handoff, ops, n).pinned == Some(KeyLine(scanned, ops[i].scanned.value))
      && (KnownHost(Replay(p, handoff, ops, n).store, Replay(p, handoff, ops, n).pinned) <==> last.None? || last.value.endpoint == scanned)
  {
    j := PinWasCandidate(p, handoff, ops, n);
    i := CandidateWasScanned(p, handoff, ops, j);
    ServerIsLast(p, handoff, ops, i, n);
  }

  lemma {:induction false} PinWasCandidate(p: Policy, handoff: Handoff, ops: seq<Op>, n: nat) returns (j: nat)
    requires n <= |ops| && Replay(p, handoff, ops, n).pinned.Some?
    ensures j < n && PinnedAt(p, handoff, ops, j) && (forall k | j < k < n :: !PinnedAt(p, handoff, ops, k))
    ensures Replay(p, handoff, ops, n).pinned == Replay(p, handoff, ops, j).candidate
    decreases n
  {
    if PinnedAt(p, handoff, ops, n - 1) {
      j := n - 1;
    } else {
      j := PinWasCandidate(p, handoff, ops, n - 1);
    }
  }

  // ---------------------------------------------------------------------------------------------
  // Evidence that is for another server, or another key.

  const PROBE := Probe(true, Some(""), Some(""))

  /** One key is confirmed after a host was onboarded and probed under another. */
  lemma {:induction false} EvidenceOutlivesItsKey(p: Policy, bundle: Bundle, first: string, second: string)
    requires Shaped(p, bundle) && first != second
    ensures
      var ops := Onboarding(first) + [PROBE, CaptureHostKey(true, Some(second)), AcceptHostKey(Fingerprint(second), 2)];
      var s := Replay(p, Complete(bundle), ops, 7);
      && s.metadata.Some? && s.metadata.value.hostKeyVerified && s.metadata.value.sshKeyVerified && s.metadata.value.capabilityMatch
      && PinnedPrint(s) == Some(Fingerprint(second))
      && SucceededAt(p, Complete(bundle), ops, 3) && PinnedPrint(Replay(p, Complete(bundle), ops, 3)) == Some(Fingerprint(first))
      && SucceededAt(p, Complete(bundle), ops, 4) && PinnedPrint(Replay(p, Complete(bundle), ops, 4)) == Some(Fingerprint(first))
  {
    var handoff := Complete(bundle);
    var ops := Onboarding(first) + [PROBE, CaptureHostKey(true, Some(second)), AcceptHostKey(Fingerprint(second), 2)];
    OnboardingEnds(p, bundle, first, ops);
    var four := Replay(p, handoff, ops, 4);
    PinStep(p, Replay(p, handoff, ops, 3), ops[3], four);
    var five := Replay(p, handoff, ops, 5);
    assert five == After(p, four, ops[4]);
    var six := Replay(p, handoff, ops, 6);
    assert six == After(p, five, ops[5]);
    assert Replay(p, handoff, ops, 7) == After(p, six, ops[6]);
  }

  /**
   * A torn rotation to another endpoint, whose key is then scanned and confirmed: no rotation has
   * finished, the key files are settled, SSH reaches the new host, and all evidence is of the old one.
   */
  lemma {:induction false} EvidenceMovesToAnotherHost(p: Policy, bundle: Bundle, endpoint: Endpoint, key: string, other: string)
    requires Shaped(p, bundle) && Shaped(p, bundle.(endpoint := endpoint)) && endpoint != bundle.endpoint
    ensures
      var ops := Onboarding(key) + [PROBE, RotationTo(bundle.(endpoint := endpoint), 1), CaptureHostKey(true, Some(other)),
                                    AcceptHostKey(Fingerprint(other), 2)];
      var s := Replay(p, Complete(bundle), ops, 8);
      && KeysSettled(s) && KnownHost(s.store, s.pinned) && s.store.value.endpoint == endpoint
      && s.metadata.Some? && s.metadata.value.sshKeyVerified && s.metadata.value.capabilityMatch
      && !ShownForPresent(p, Complete(bundle), ops, 3, 8) && !ShownForPresent(p, Complete(bundle), ops, 4, 8)
  {
    var handoff := Complete(bundle);
    var ops := Onboarding(key) + [PROBE, RotationTo(bundle.(endpoint := endpoint), 1), CaptureHostKey(true, Some(other)),
                                  AcceptHostKey(Fingerprint(other), 2)];
    OnboardingEnds(p, bundle, key, ops);
    ServerStep(p, Replay(p, handoff, ops, 3), ops[3], Replay(p, handoff, ops, 4));
    var five := Replay(p, handoff, ops, 5);
    assert five == After(p, Replay(p, handoff, ops, 4), ops[4]);
    var six := Replay(p, handoff, ops, 6);
    assert six == After(p, five, ops[5]);
    var seven := Replay(p, handoff, ops, 7);
    assert seven == After(p, six, ops[6]);
    assert Replay(p, handoff, ops, 8) == After(p, seven, ops[7]);
  }

  /**
   * A torn rotation to another password of the same host: the key files stay settled, the stored
   * password was never tried, it counts as verified, and finalization goes ahead on it.
   */
  lemma {:induction false} UntriedPasswordCountsAsVerified(p: Policy, bundle: Bundle, password: string, key: string)
    requires Shaped(p, bundle) && Shaped(p, bundle.(password := password)) && password != bundle.password
    ensures
      var ops := Onboarding(key) + [RotationTo(bundle.(password := password), 1), AcceptCredentials(true)];
      var s := Replay(p, Complete(bundle), ops, 6);
      && KeysSettled(s) && s.store == Some(bundle.(password := password))
      && s.metadata.Some? && ServerPassword in s.metadata.value.verification
      && s.metadata.value.verification[ServerPassword] == VerifiedLogin
      && !ShownForPresent(p, Complete(bundle), ops, 3, 6)
      && Succeeds(p, s, Finalize(true, 2))
  {
    var handoff := Complete(bundle);
    var ops := Onboarding(key) + [RotationTo(bundle.(password := password), 1), AcceptCredentials(true)];
    OnboardingEnds(p, bundle, key, ops);
    ServerStep(p, Replay(p, handoff, ops, 3), ops[3], Replay(p, handoff, ops, 4));
    var five := Replay(p, handoff, ops, 5);
    assert five == After(p, Replay(p, handoff, ops, 4), ops[4]);
    assert Replay(p, handoff, ops, 6) == After(p, five, ops[5]);
  }

  // ---------------------------------------------------------------------------------------------
  // Live evidence of the API keys.

  ghost predicate Live(s: State, secret: Credential) {
    s.metadata.Some? && secret in s.metadata.value.verification && s.metadata.value.verification[secret] == VerifiedLive
  }

  /** The key was recorded as live, and no acceptance succeeded since. */
  ghost predicate RecordedSince(p: Policy, handoff: Handoff, ops: seq<Op>, n: nat, secret: Credential) {
    exists i | 0 <= i < n ::
      && SucceededAt(p, handoff, ops, i) && ops[i].RecordLive? && ops[i].secret == secret
      && NotAccepted(p, handoff, ops, i, n)
  }

  ghost predicate NotAccepted(p: Policy, handoff: Handoff, ops: seq<Op>, i: nat, n: nat) {
    forall k | i <= k < n && SucceededAt(p, handoff, ops, k) :: !ops[k].AcceptCredentials?
  }

  lemma LiveStep(p: Policy, s: State, op: Op, after: State, secret: Credential)
    requires after == After(p, s, op) && secret != ServerPassword
    ensures Live(after, secret) <==>
            || (op.RecordLive? && op.secret == secret && Succeeds(p, s, op))
            || (Live(s, secret) && !(op.AcceptCredentials? && Succeeds(p, s, op)))
  {
  }

  /**
   * An API key counts as live exactly if it was recorded as such and the credentials were not
   * accepted again since; no other operation matters, a rotation in particular.
   */
  lemma {:induction false} LiveIff(p: Policy, handoff: Handoff, ops: seq<Op>, n: nat, secret: Credential)
    requires n <= |ops| && secret != ServerPassword
    ensures Live(Replay(p, handoff, ops, n), secret) <==> RecordedSince(p, handoff, ops, n, secret)
    decreases n
  {
    if n > 0 {
      LiveIff(p, handoff, ops, n - 1, secret);
      LiveStep(p, Replay(p, handoff, ops, n - 1), ops[n - 1], Replay(p, handoff, ops, n), secret);
      RecordedStep(p, handoff, ops, n - 1, secret);
    }
  }

  lemma {:induction false} RecordedStep(p: Policy, handoff: Handoff, ops: seq<Op>, n: nat, secret: Credential)
    requires n < |ops|
    ensures RecordedSince(p, handoff, ops, n + 1, secret) <==>
            || (SucceededAt(p, handoff, ops, n) && ops[n].RecordLive? && ops[n].secret == secret)
            || (RecordedSince(p, handoff, ops, n, secret) && !(SucceededAt(p, handoff, ops, n) && ops[n].AcceptCredentials?))
  {
    if SucceededAt(p, handoff, ops, n) && ops[n].RecordLive? && ops[n].secret == secret {
      assert NotAccepted(p, handoff, ops, n, n + 1);
    } else if RecordedSince(p, handoff, ops, n, secret) && !(SucceededAt(p, handoff, ops, n) && ops[n].AcceptCredentials?) {
      var i :| 0 <= i < n && SucceededAt(p, handoff, ops, i) && ops[i].RecordLive? && ops[i].secret == secret && NotAccepted(p, handoff, ops, i, n);
      assert NotAccepted(p, handoff, ops, i, n + 1);
    }
    if RecordedSince(p, handoff, ops, n + 1, secret) {
      var i :| 0 <= i < n + 1 && SucceededAt(p, handoff, ops, i) && ops[i].RecordLive? && ops[i].secret == secret && NotAccepted(p, handoff, ops, i, n + 1);
      if i < n {
        assert NotAccepted(p, handoff, ops, i, n);
      }
    }
  }

  /** The failing input: the tracing key is recorded as live and the credentials accepted again. */
  lemma {:induction false} AcceptingAgainLosesLive(p: Policy, bundle: Bundle)
    requires Shaped(p, bundle)
    ensures
      var ops := [Migrate(true, true, 2), AcceptCredentials(true), RecordLive(LangsmithKey, TraceService), AcceptCredentials(true)];
      && Live(Replay(p, Complete(bundle), ops, 3), LangsmithKey) && SucceededAt(p, Complete(bundle), ops, 3)
      && !Live(Replay(p, Complete(bundle), ops, 4), LangsmithKey)
  {
    var ops := [Migrate(true, true, 2), AcceptCredentials(true), RecordLive(LangsmithKey, TraceService), AcceptCredentials(true)];
    var handoff := Complete(bundle);
    var one := Replay(p, handoff, ops, 1);
    assert one == After(p, Replay(p, handoff, ops, 0), ops[0]);
    var two := Replay(p, handoff, ops, 2);
    assert two == After(p, one, ops[1]);
    var three := Replay(p, handoff, ops, 3);
    assert three == After(p, two, ops[2]);
    assert Replay(p, handoff, ops, 4) == After(p, three, ops[3]);
  }

  // ---------------------------------------------------------------------------------------------
  // Finalization and migration happen once.

  /** The metadata says that the handoff was deleted exactly if it is. */
  ghost predicate DeletionIsRecorded(s: State) {
    s.metadata.Some? ==> (s.metadata.value.handoffDeleted <==> s.handoff == Absent)
  }

  /** The finalization at `i` unlinked the handoff and wrote no metadata. */
  ghost predicate FinalizationTornAt(p: Policy, handoff: Handoff, ops: seq<Op>, i: nat) {
    i < |ops| && ops[i].Finalize? && Begins(p, Replay(p, handoff, ops, i), ops[i]) && ops[i].writes == 1
  }

  /** A deletion is on record exactly if no finalization was torn: it cannot be repeated either. */
  lemma {:induction false} DeletionIsRecordedIff(p: Policy, handoff: Handoff, ops: seq<Op>, n: nat)
    requires n <= |ops|
    ensures DeletionIsRecorded(Replay(p, handoff, ops, n)) <==> forall i | 0 <= i < n :: !FinalizationTornAt(p, handoff, ops, i)
    decreases n
  {
    if n > 0 {
      DeletionIsRecordedIff(p, handoff, ops, n - 1);
      EverySequenceIsSound(p, handoff, ops, n - 1);
      DeletionStep(p, handoff, Replay(p, handoff, ops, n - 1), ops[n - 1]);
      assert FinalizationTornAt(p, handoff, ops, n - 1) <==>
        ops[n - 1].Finalize? && Begins(p, Replay(p, handoff, ops, n - 1), ops[n - 1]) && ops[n - 1].writes == 1;
    }
  }

  /** The failing input: a finalization that stops after it has unlinked the handoff. */
  lemma {:induction false} TornFinalizationIsNotRecorded(p: Policy, bundle: Bundle, key: string)
    requires Shaped(p, bundle)
    ensures
      var ops := Onboarding(key) + [AcceptCredentials(true), Finalize(true, 1)];
      var s := Replay(p, Complete(bundle), ops, 6);
      s.handoff == Absent && FinalizationTornAt(p, Complete(bundle), ops, 5) && !DeletionIsRecorded(s)
  {
    var ops := Onboarding(key) + [AcceptCredentials(true), Finalize(true, 1)];
    OnboardingEnds(p, bundle, key, ops);
    var five := Replay(p, Complete(bundle), ops, 5);
    assert five == After(p, Replay(p, Complete(bundle), ops, 4), ops[4]);
    assert Replay(p, Complete(bundle), ops, 6) == After(p, five, ops[5]);
  }

  lemma DeletionStep(p: Policy, handoff: Handoff, s: State, op: Op)
    requires Sound(p, handoff, s)
    ensures DeletionIsRecorded(After(p, s, op)) <==>
            DeletionIsRecorded(s) && !(op.Finalize? && Begins(p, s, op) && op.writes == 1)
  {
  }

  /** A second migration never replaces what the first one wrote. */
  lemma {:induction false} MigrationHappensOnce(p: Policy, handoff: Handoff, ops: seq<Op>, i: nat, j: nat)
    requires i < j < |ops| && ops[i].Migrate? && SucceededAt(p, handoff, ops, i)
    ensures Replay(p, handoff, ops, j).metadata.Some? && Replay(p, handoff, ops, j).store.Some?
    ensures ops[j].Migrate? ==> Replay(p, handoff, ops, j + 1) == Replay(p, handoff, ops, j)
    decreases j
  {
    EverySequenceIsSound(p, handoff, ops, j);
    if i < j - 1 {
      MigrationHappensOnce(p, handoff, ops, i, j - 1);
    }
  }
}
