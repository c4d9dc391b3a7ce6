/**
 * The trust lifecycle told by its history alone: when each flag is set and when each call succeeds, in
 * terms of what was called before, what tools and network answered, and which writes went through.
 */
module TrustHistory {
  import opened Prelude
  import opened TrustLifecycle

  // ---------------------------------------------------------------------------------------------
  // Events and what undoes them.

  /** The event happened at some place before `n`, and nothing undid it since. */
  ghost predicate HappenedSince(event: nat -> bool, undone: nat -> bool, n: nat) {
    exists i | 0 <= i < n :: event(i) && StandsSince(undone, i, n)
  }

  ghost predicate StandsSince(undone: nat -> bool, i: nat, n: nat) {
    forall k: nat | i <= k < n :: !undone(k)
  }

  lemma {:induction false} HappenedStep(event: nat -> bool, undone: nat -> bool, n: nat)
    ensures HappenedSince(event, undone, n + 1) <==> !undone(n) && (event(n) || HappenedSince(event, undone, n))
  {
    if !undone(n) && event(n) {
      assert StandsSince(undone, n, n + 1);
    }
    if !undone(n) && HappenedSince(event, undone, n) {
      var i: nat :| i < n && event(i) && StandsSince(undone, i, n);
      assert StandsSince(undone, i, n + 1);
    }
    if HappenedSince(event, undone, n + 1) {
      var i: nat :| i < n + 1 && event(i) && StandsSince(undone, i, n + 1);
      if i < n {
        assert StandsSince(undone, i, n);
      }
    }
  }

  /** A condition that holds after a step exactly by the event, or as before and not undone, is the event since. */
  lemma {:induction false} FlagIsHistory(flag: nat -> bool, event: nat -> bool, undone: nat -> bool, n: nat)
    requires !flag(0)
    requires forall k: nat | k < n :: flag(k + 1) <==> !undone(k) && (event(k) || flag(k))
    ensures flag(n) <==> HappenedSince(event, undone, n)
    decreases n
  {
    if n > 0 {
      FlagIsHistory(flag, event, undone, n - 1);
      HappenedStep(event, undone, n - 1);
    }
  }

  ghost function Migrating(p: Policy, handoff: Handoff, ops: seq<Op>): nat -> bool {
    (i: nat) => SucceededAt(p, handoff, ops, i) && ops[i].Migrate?
  }

  ghost function Accepting(p: Policy, handoff: Handoff, ops: seq<Op>): nat -> bool {
    (i: nat) => SucceededAt(p, handoff, ops, i) && ops[i].AcceptCredentials?
  }

  ghost function Confirming(p: Policy, handoff: Handoff, ops: seq<Op>): nat -> bool {
    (i: nat) => SucceededAt(p, handoff, ops, i) && ops[i].AcceptHostKey?
  }

  ghost function Installing(p: Policy, handoff: Handoff, ops: seq<Op>): nat -> bool {
    (i: nat) => SucceededAt(p, handoff, ops, i) && ops[i].InstallKey?
  }

  ghost function Probing(p: Policy, handoff: Handoff, ops: seq<Op>): nat -> bool {
    (i: nat) => SucceededAt(p, handoff, ops, i) && ops[i].Probe?
  }

  ghost function Never(): nat -> bool {
    (_: nat) => false
  }

  ghost function Rotating(p: Policy, handoff: Handoff, ops: seq<Op>): nat -> bool {
    (i: nat) => RotatedAt(p, handoff, ops, i)
  }

  /** A migration succeeded before the `n`-th operation. */
  ghost predicate MigratedBefore(p: Policy, handoff: Handoff, ops: seq<Op>, n: nat) {
    HappenedSince(Migrating(p, handoff, ops), Never(), n)
  }

  /** The existing credentials were accepted before. */
  ghost predicate AcceptedBefore(p: Policy, handoff: Handoff, ops: seq<Op>, n: nat) {
    HappenedSince(Accepting(p, handoff, ops), Never(), n)
  }

  /** A host key was confirmed, an SSH key installed, a match probed, with no rotation finished since. */
  ghost predicate ConfirmedSince(p: Policy, handoff: Handoff, ops: seq<Op>, n: nat) {
    HappenedSince(Confirming(p, handoff, ops), Rotating(p, handoff, ops), n)
  }

  ghost predicate InstalledSince(p: Policy, handoff: Handoff, ops: seq<Op>, n: nat) {
    HappenedSince(Installing(p, handoff, ops), Rotating(p, handoff, ops), n)
  }

  ghost predicate ProbedSince(p: Policy, handoff: Handoff, ops: seq<Op>, n: nat) {
    HappenedSince(Probing(p, handoff, ops), Rotating(p, handoff, ops), n)
  }

  // ---------------------------------------------------------------------------------------------
  // What one call does to each flag.

  predicate MetadataFlag(s: State) {
    s.metadata.Some?
  }

  predicate HostKeyFlag(s: State) {
    s.metadata.Some? && s.metadata.value.hostKeyVerified
  }

  predicate SshKeyFlag(s: State) {
    s.metadata.Some? && s.metadata.value.sshKeyVerified
  }

  predicate CapabilityFlag(s: State) {
    s.metadata.Some? && s.metadata.value.capabilityMatch
  }

  /** All three credentials are accepted. */
  predicate AcceptedFlag(s: State) {
    && s.metadata.Some? && AcceptedIn(s.metadata.value, ServerPassword)
    && AcceptedIn(s.metadata.value, BailianKey) && AcceptedIn(s.metadata.value, LangsmithKey)
  }

  lemma FlagSteps(p: Policy, s: State, op: Op, after: State)
    requires after == After(p, s, op)
    ensures MetadataFlag(after) <==> (op.Migrate? && Succeeds(p, s, op)) || MetadataFlag(s)
    ensures HostKeyFlag(after) <==> !(op.Rotate? && Succeeds(p, s, op)) && ((op.AcceptHostKey? && Succeeds(p, s, op)) || HostKeyFlag(s))
    ensures SshKeyFlag(after) <==> !(op.Rotate? && Succeeds(p, s, op)) && ((op.InstallKey? && Succeeds(p, s, op)) || SshKeyFlag(s))
    ensures CapabilityFlag(after) <==> !(op.Rotate? && Succeeds(p, s, op)) && ((op.Probe? && Succeeds(p, s, op)) || CapabilityFlag(s))
  {
  }

  lemma AcceptedStep(p: Policy, s: State, op: Op, after: State)
    requires after == After(p, s, op)
    ensures AcceptedFlag(after) <==> (op.AcceptCredentials? && Succeeds(p, s, op)) || AcceptedFlag(s)
  {
  }

  /** One credential is accepted exactly with all of them. */
  ghost predicate AllOrNone(s: State) {
    s.metadata.Some? ==>
      && (AcceptedIn(s.metadata.value, ServerPassword) <==> AcceptedFlag(s))
      && (AcceptedIn(s.metadata.value, BailianKey) <==> AcceptedFlag(s))
      && (AcceptedIn(s.metadata.value, LangsmithKey) <==> AcceptedFlag(s))
  }

  lemma AllOrNoneStep(p: Policy, s: State, op: Op, after: State)
    requires after == After(p, s, op) && AllOrNone(s)
    ensures AllOrNone(after)
  {
  }

  lemma {:induction false} CredentialsGoTogether(p: Policy, handoff: Handoff, ops: seq<Op>, n: nat)
    requires n <= |ops|
    ensures AllOrNone(Replay(p, handoff, ops, n))
    decreases n
  {
    if n > 0 {
      CredentialsGoTogether(p, handoff, ops, n - 1);
      AllOrNoneStep(p, Replay(p, handoff, ops, n - 1), ops[n - 1], Replay(p, handoff, ops, n));
    }
  }

  // ---------------------------------------------------------------------------------------------
  // Each flag is its history.

  ghost function Tells(p: Policy, handoff: Handoff, ops: seq<Op>, flag: State -> bool): nat -> bool {
    (n: nat) => n <= |ops| && flag(Replay(p, handoff, ops, n))
  }

  lemma {:induction false} MigratedIff(p: Policy, handoff: Handoff, ops: seq<Op>, n: nat)
    requires n <= |ops|
    ensures MetadataFlag(Replay(p, handoff, ops, n)) <==> MigratedBefore(p, handoff, ops, n)
  {
    var flag := Tells(p, handoff, ops, MetadataFlag);
    forall k: nat | k < n ensures flag(k + 1) <==> !Never()(k) && (Migrating(p, handoff, ops)(k) || flag(k)) {
      FlagSteps(p, Replay(p, handoff, ops, k), ops[k], Replay(p, handoff, ops, k + 1));
    }
    assert !MetadataFlag(Replay(p, handoff, ops, 0));
    FlagIsHistory(flag, Migrating(p, handoff, ops), Never(), n);
  }

  lemma {:induction false} ConfirmedIff(p: Policy, handoff: Handoff, ops: seq<Op>, n: nat)
    requires n <= |ops|
    ensures HostKeyFlag(Replay(p, handoff, ops, n)) <==> ConfirmedSince(p, handoff, ops, n)
  {
    var flag, event, undone := Tells(p, handoff, ops, HostKeyFlag), Confirming(p, handoff, ops), Rotating(p, handoff, ops);
    forall k: nat | k < n ensures flag(k + 1) <==> !undone(k) && (event(k) || flag(k)) {
      FlagSteps(p, Replay(p, handoff, ops, k), ops[k], Replay(p, handoff, ops, k + 1));
    }
    assert !HostKeyFlag(Replay(p, handoff, ops, 0));
    FlagIsHistory(flag, event, undone, n);
  }

  lemma {:induction false} InstalledIff(p: Policy, handoff: Handoff, ops: seq<Op>, n: nat)
    requires n <= |ops|
    ensures SshKeyFlag(Replay(p, handoff, ops, n)) <==> InstalledSince(p, handoff, ops, n)
  {
    var flag, event, undone := Tells(p, handoff, ops, SshKeyFlag), Installing(p, handoff, ops), Rotating(p, handoff, ops);
    forall k: nat | k < n ensures flag(k + 1) <==> !undone(k) && (event(k) || flag(k)) {
      FlagSteps(p, Replay(p, handoff, ops, k), ops[k], Replay(p, handoff, ops, k + 1));
    }
    assert !SshKeyFlag(Replay(p, handoff, ops, 0));
    FlagIsHistory(flag, event, undone, n);
  }

  lemma {:induction false} ProbedIff(p: Policy, handoff: Handoff, ops: seq<Op>, n: nat)
    requires n <= |ops|
    ensures CapabilityFlag(Replay(p, handoff, ops, n)) <==> ProbedSince(p, handoff, ops, n)
  {
    var flag, event, undone := Tells(p, handoff, ops, CapabilityFlag), Probing(p, handoff, ops), Rotating(p, handoff, ops);
    forall k: nat | k < n ensures flag(k + 1) <==> !undone(k) && (event(k) || flag(k)) {
      FlagSteps(p, Replay(p, handoff, ops, k), ops[k], Replay(p, handoff, ops, k + 1));
    }
    assert !CapabilityFlag(Replay(p, handoff, ops, 0));
    FlagIsHistory(flag, event, undone, n);
  }

  lemma {:induction false} AcceptedIff(p: Policy, handoff: Handoff, ops: seq<Op>, n: nat)
    requires n <= |ops|
    ensures AcceptedFlag(Replay(p, handoff, ops, n)) <==> AcceptedBefore(p, handoff, ops, n)
  {
    var flag, event := Tells(p, handoff, ops, AcceptedFlag), Accepting(p, handoff, ops);
    forall k: nat | k < n ensures flag(k + 1) <==> !Never()(k) && (event(k) || flag(k)) {
      AcceptedStep(p, Replay(p, handoff, ops, k), ops[k], Replay(p, handoff, ops, k + 1));
    }
    assert !AcceptedFlag(Replay(p, handoff, ops, 0));
    FlagIsHistory(flag, event, Never(), n);
  }

  /** A single secret is accepted exactly if the credentials were, all together. */
  lemma {:induction false} SecretAcceptedIff(p: Policy, handoff: Handoff, ops: seq<Op>, n: nat, secret: Credential)
    requires n <= |ops|
    ensures
      var s := Replay(p, handoff, ops, n);
      s.metadata.Some? && AcceptedIn(s.metadata.value, secret) <==> AcceptedBefore(p, handoff, ops, n)
  {
    AcceptedIff(p, handoff, ops, n);
    CredentialsGoTogether(p, handoff, ops, n);
  }

  // ---------------------------------------------------------------------------------------------
  // The store and the handoff.

  /** An earlier migration got as far as writing the store. */
  ghost predicate StoredBefore(ops: seq<Op>, n: nat)
    requires n <= |ops|
  {
    exists j | 0 <= j < n :: ops[j].Migrate? && ops[j].tools && ops[j].writes >= 1
  }

  lemma {:induction false} StoredIff(p: Policy, handoff: Handoff, ops: seq<Op>, n: nat)
    requires n <= |ops|
    ensures Replay(p, handoff, ops, n).store.Some? <==> handoff.Complete? && Shaped(p, handoff.bundle) && StoredBefore(ops, n)
    decreases n
  {
    if n > 0 {
      StoredIff(p, handoff, ops, n - 1);
      EverySequenceIsSound(p, handoff, ops, n - 1);
      StoreStep(p, handoff, Replay(p, handoff, ops, n - 1), ops[n - 1]);
      assert StoredBefore(ops, n) <==> StoredBefore(ops, n - 1) || (ops[n - 1].Migrate? && ops[n - 1].tools && ops[n - 1].writes >= 1);
    }
  }

  lemma StoreStep(p: Policy, handoff: Handoff, s: State, op: Op)
    requires Sound(p, handoff, s)
    ensures After(p, s, op).store.Some? <==>
            s.store.Some? || (op.Migrate? && op.tools && op.writes >= 1 && handoff.Complete? && Shaped(p, handoff.bundle))
  {
  }

  /** A migration succeeds exactly if everything works, the handoff is in shape, and no earlier one wrote the store. */
  lemma {:induction false} MigrateSucceedsIff(p: Policy, handoff: Handoff, ops: seq<Op>, k: nat)
    requires k < |ops| && ops[k].Migrate?
    ensures SucceededAt(p, handoff, ops, k) <==>
            && ops[k].tools && ops[k].roundTrips && ops[k].writes >= 2
            && handoff.Complete? && Shaped(p, handoff.bundle) && !StoredBefore(ops, k)
  {
    StoredIff(p, handoff, ops, k);
    EverySequenceIsSound(p, handoff, ops, k);
  }

  /** The values a first migration lets through, character by character; whatever is stored later keeps to them. */
  ghost predicate InShape(p: Policy, b: Bundle) {
    && p.hostSafe(b.endpoint.host) && p.userSafe(b.username) && 0 < b.endpoint.port < 65536
    && |b.password| > 0 && (forall i | 0 <= i < |b.password| :: b.password[i] != '\r' && b.password[i] != '\n' && b.password[i] != '\0')
    && forall key | key in [b.bailianKey, b.langsmithKey] :: |key| > 19 && forall i | 0 <= i < |key| :: !p.space(key[i])
  }

  lemma {:induction false} ShapedIsInShape(p: Policy, b: Bundle)
    ensures Shaped(p, b) <==> InShape(p, b)
  {
    assert b.bailianKey in [b.bailianKey, b.langsmithKey] && b.langsmithKey in [b.bailianKey, b.langsmithKey];
  }

  lemma {:induction false} StoredIsInShape(p: Policy, handoff: Handoff, ops: seq<Op>, n: nat)
    requires n <= |ops| && Replay(p, handoff, ops, n).store.Some?
    ensures InShape(p, Replay(p, handoff, ops, n).store.value)
  {
    EverySequenceIsSound(p, handoff, ops, n);
    ShapedIsInShape(p, Replay(p, handoff, ops, n).store.value);
  }

  /** On empty stores, with everything working, the shape alone decides. */
  lemma {:induction false} FirstMigrationIff(p: Policy, handoff: Handoff, bundle: Bundle)
    requires handoff == Complete(bundle)
    ensures SucceededAt(p, handoff, [Migrate(true, true, 2)], 0) <==> InShape(p, bundle)
  {
    ShapedIsInShape(p, bundle);
    MigrateSucceedsIff(p, handoff, [Migrate(true, true, 2)], 0);
  }

  /** The bundle a rotation writes: its own server values with the API keys that were migrated. */
  function Target(migrated: Bundle, op: Op): Bundle
    requires op.Rotate?
  {
    Bundle(op.endpoint, op.username, op.password, migrated.bailianKey, migrated.langsmithKey)
  }

  /** A rotation succeeds exactly after a migration, to values in shape, with every tool and write working. */
  lemma {:induction false} RotateSucceedsIff(p: Policy, handoff: Handoff, ops: seq<Op>, k: nat)
    requires k < |ops| && ops[k].Rotate?
    ensures SucceededAt(p, handoff, ops, k) <==>
            && ops[k].tools && ops[k].roundTrips && ops[k].writes >= 4 && MigratedBefore(p, handoff, ops, k)
            && handoff.Complete? && Shaped(p, Target(handoff.bundle, ops[k]))
  {
    MigratedIff(p, handoff, ops, k);
    EverySequenceIsSound(p, handoff, ops, k);
  }

  /** A rotation that succeeds is the last entry of the log, with its reason, from the endpoint stored before to its own. */
  lemma {:induction false} RotationIsLoggedLast(p: Policy, handoff: Handoff, ops: seq<Op>, k: nat)
    requires k < |ops| && RotatedAt(p, handoff, ops, k)
    ensures
      var before, after := Replay(p, handoff, ops, k), Replay(p, handoff, ops, k + 1);
      && before.store.Some? && before.metadata.Some? && after.metadata.Some?
      && after.metadata.value.rotations == before.metadata.value.rotations
           + [Rotation(ops[k].reason, EndpointDigest(before.store.value.endpoint), EndpointDigest(ops[k].endpoint))]
  {
  }

  /** Credentials can be accepted exactly after a migration; the owner of an accepted key alone records it as live. */
  lemma {:induction false} AcceptSucceedsIff(p: Policy, handoff: Handoff, ops: seq<Op>, k: nat)
    requires k < |ops|
    ensures ops[k].AcceptCredentials? ==>
              (SucceededAt(p, handoff, ops, k) <==> ops[k].tools && MigratedBefore(p, handoff, ops, k))
    ensures ops[k].RecordLive? ==>
              (SucceededAt(p, handoff, ops, k) <==>
                 && AcceptedBefore(p, handoff, ops, k)
                 && ((ops[k].secret == LangsmithKey && ops[k].capability == TraceService)
                     || (ops[k].secret == BailianKey && ops[k].capability == ModelGateway)))
  {
    MigratedIff(p, handoff, ops, k);
    EverySequenceIsSound(p, handoff, ops, k);
    if ops[k].RecordLive? {
      SecretAcceptedIff(p, handoff, ops, k, ops[k].secret);
    }
  }

  /** The last scan since whose key is still the candidate. */
  ghost predicate ScannedLast(p: Policy, handoff: Handoff, ops: seq<Op>, i: nat, k: nat) {
    i < k && i < |ops| && ops[i].CaptureHostKey? && SucceededAt(p, handoff, ops, i) && CandidateKept(p, handoff, ops, i, k)
  }

  lemma {:induction false} CandidateStays(p: Policy, handoff: Handoff, ops: seq<Op>, i: nat, k: nat)
    requires k <= |ops| && ScannedLast(p, handoff, ops, i, k)
    ensures Replay(p, handoff, ops, k).candidate.Some? && Replay(p, handoff, ops, k).candidate.value.key == ops[i].scanned.value
    decreases k
  {
    if i + 1 < k {
      CandidateStays(p, handoff, ops, i, k - 1);
      assert !(SucceededAt(p, handoff, ops, k - 1) && ops[k - 1].CaptureHostKey?) && !RotatesTo(p, handoff, ops, k - 1, 3);
    }
  }

  /** A scan is kept exactly if the store is there and one key answered. */
  lemma {:induction false} CaptureSucceedsIff(p: Policy, handoff: Handoff, ops: seq<Op>, k: nat)
    requires k < |ops| && ops[k].CaptureHostKey?
    ensures SucceededAt(p, handoff, ops, k) <==>
            ops[k].tools && ops[k].scanned.Some? && handoff.Complete? && Shaped(p, handoff.bundle) && StoredBefore(ops, k)
  {
    StoredIff(p, handoff, ops, k);
    EverySequenceIsSound(p, handoff, ops, k);
  }

  /** A key is pinned exactly if the operator's fingerprint is that of the last scan still on file, and confirmed if a migration was recorded too. */
  lemma {:induction false} ConfirmSucceedsIff(p: Policy, handoff: Handoff, ops: seq<Op>, k: nat)
    requires k < |ops| && ops[k].AcceptHostKey?
    ensures PinnedAt(p, handoff, ops, k) <==>
            ops[k].writes >= 1 && exists i | 0 <= i < k :: ScannedLast(p, handoff, ops, i, k) && Fingerprint(ops[i].scanned.value) == ops[k].expected
    ensures SucceededAt(p, handoff, ops, k) <==> PinnedAt(p, handoff, ops, k) && ops[k].writes >= 2 && MigratedBefore(p, handoff, ops, k)
  {
    MigratedIff(p, handoff, ops, k);
    if Replay(p, handoff, ops, k).candidate.Some? {
      var i := CandidateWasScanned(p, handoff, ops, k);
      assert ScannedLast(p, handoff, ops, i, k);
    }
    forall i: nat | i < k && ScannedLast(p, handoff, ops, i, k)
      ensures Replay(p, handoff, ops, k).candidate.Some? && Replay(p, handoff, ops, k).candidate.value.key == ops[i].scanned.value
    {
      CandidateStays(p, handoff, ops, i, k);
    }
  }

  /** The pinned line is one for the stored endpoint. */
  ghost predicate HostKnownAt(p: Policy, handoff: Handoff, ops: seq<Op>, k: nat)
    requires k <= |ops|
  {
    KnownHost(Replay(p, handoff, ops, k).store, Replay(p, handoff, ops, k).pinned)
  }

  /** An installation succeeds exactly on a host confirmed since the last rotation and known, with all three SSH steps. */
  lemma {:induction false} InstallSucceedsIff(p: Policy, handoff: Handoff, ops: seq<Op>, k: nat)
    requires k < |ops| && ops[k].InstallKey?
    ensures SucceededAt(p, handoff, ops, k) <==>
            && ops[k].tools && ops[k].passwordLogin && ops[k].installed && ops[k].keyLogin
            && ConfirmedSince(p, handoff, ops, k) && HostKnownAt(p, handoff, ops, k)
  {
    ConfirmedIff(p, handoff, ops, k);
    EverySequenceIsSound(p, handoff, ops, k);
  }

  /** A probe matches exactly on a known host with an SSH key installed since the last rotation, and two equal reports. */
  lemma {:induction false} ProbeSucceedsIff(p: Policy, handoff: Handoff, ops: seq<Op>, k: nat)
    requires k < |ops| && ops[k].Probe?
    ensures SucceededAt(p, handoff, ops, k) <==>
            && ops[k].tools && ops[k].first.Some? && ops[k].second == ops[k].first
            && InstalledSince(p, handoff, ops, k) && HostKnownAt(p, handoff, ops, k)
  {
    InstalledIff(p, handoff, ops, k);
    EverySequenceIsSound(p, handoff, ops, k);
  }

  // ---------------------------------------------------------------------------------------------
  // The plaintext handoff.

  /** The operation at `f` removed the handoff. */
  ghost predicate RemovesAt(p: Policy, handoff: Handoff, ops: seq<Op>, f: nat) {
    f < |ops| && Replay(p, handoff, ops, f).handoff != Absent && Replay(p, handoff, ops, f + 1).handoff == Absent
  }

  /**
   * A call removes the handoff exactly if it is a finalization whose tools work and whose first write
   * goes through, while the handoff is there, after the credentials were accepted, and with an SSH key
   * installed and no rotation finished since.
   */
  lemma {:induction false} RemovesIff(p: Policy, handoff: Handoff, ops: seq<Op>, f: nat)
    requires f < |ops|
    ensures RemovesAt(p, handoff, ops, f) <==>
            && ops[f].Finalize? && ops[f].tools && ops[f].writes >= 1 && Replay(p, handoff, ops, f).handoff != Absent
            && AcceptedBefore(p, handoff, ops, f) && InstalledSince(p, handoff, ops, f)
  {
    AcceptedIff(p, handoff, ops, f);
    InstalledIff(p, handoff, ops, f);
    EverySequenceIsSound(p, handoff, ops, f);
  }

  /** Where the handoff was there and is gone, one finalization removed it. */
  lemma {:induction false} RemovedOnce(p: Policy, handoff: Handoff, ops: seq<Op>, n: nat) returns (f: nat)
    requires n <= |ops| && handoff != Absent && Replay(p, handoff, ops, n).handoff == Absent
    ensures f < n && RemovesAt(p, handoff, ops, f)
    decreases n
  {
    if Replay(p, handoff, ops, n - 1).handoff == Absent {
      f := RemovedOnce(p, handoff, ops, n - 1);
    } else {
      f := n - 1;
    }
  }

  /**
   * Over every sequence, whichever writes fail: where the handoff was there and is gone, the existing
   * credentials were accepted before the call that removed it, and an SSH key was installed with no
   * rotation finished between.
   */
  lemma {:induction false} HandoffWasEarned(p: Policy, handoff: Handoff, ops: seq<Op>, n: nat) returns (a: nat, j: nat, f: nat)
    requires n <= |ops| && handoff != Absent && Replay(p, handoff, ops, n).handoff == Absent
    ensures a < f < n && j < f && RemovesAt(p, handoff, ops, f) && ops[f].Finalize?
    ensures ops[a].AcceptCredentials? && SucceededAt(p, handoff, ops, a)
    ensures ops[j].InstallKey? && SucceededAt(p, handoff, ops, j) && NotRotated(p, handoff, ops, j, f)
  {
    f := RemovedOnce(p, handoff, ops, n);
    RemovesIff(p, handoff, ops, f);
    a :| 0 <= a < f && Accepting(p, handoff, ops)(a) && StandsSince(Never(), a, f);
    j :| 0 <= j < f && Installing(p, handoff, ops)(j) && StandsSince(Rotating(p, handoff, ops), j, f);
    forall k | j <= k < f ensures !RotatedAt(p, handoff, ops, k) {
      assert !Rotating(p, handoff, ops)(k);
    }
  }
}
