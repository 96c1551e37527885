/**
 * The enrollment transaction store (src/config.ts): one key/value store holding
 * credentials, pending enrollments, accepted markers and rollback snapshots.
 *
 * Identifiers and secrets are numbers.  Digests are injective, so a digest is
 * represented by what it digests.  A record is its decoded content; text that
 * does not decode is `Unreadable`.
 */
module EnrollmentStore {
  import opened Common

  type Origin = nat
  type Trust = nat
  type Uuid = nat
  type Secret = nat
  type Hex = nat

  datatype Account =
    | CredentialAccount(origin: Origin, trust: Trust)
    | PendingAccount(origin: Origin, trust: Trust)
    | MarkerAccount(origin: Origin)
    | RollbackAccount(origin: Origin, retryKey: Uuid)
    | OtherAccount(name: nat)

  type Accounts = map<Account, Value>

  /** The verified invitation artifact; its digest is the invitation. */
  datatype Binding = Binding(artifact: Secret, endpoint: Origin, caSpki: Hex, trust: Trust, stagedGeneration: Hex)

  datatype Capability = Capability(
    token: Uuid, prior: map<Account, Value>, endpoint: Origin, caSpki: Hex, trust: Trust, retryKey: Uuid, artifact: Secret)

  datatype PendingRecord = PendingRecord(
    origin: Origin, trust: Trust, invitation: Secret, retryKey: Uuid, secret: Secret,
    clientName: Option<nat>, binding: Option<Binding>, capability: Option<Capability>)

  datatype Pointer = Pointer(origin: Origin, generation: Hex, trust: Trust)

  datatype Marker = Marker(
    origin: Origin, trust: Trust, generation: Hex, previous: Option<Pointer>,
    activeDigest: Value, rollbackAccount: Account, rollbackDigest: Value)

  /** `Credential` and the legacy cube-creation record both carry record version 2. */
  datatype Value =
    | Credential(origin: Origin, trust: Trust, secret: Secret, clientId: Option<Uuid>, createCube: bool)
    | LegacyCube(origin: Origin, trust: Trust, cube: nat)
    | Pending(rec: PendingRecord)
    | Accepted(marker: Marker)
    | Rollback(snapshotOrigin: Origin, active: map<Account, Value>, pendingAccount: Account, pendingValue: Value)
    | Unreadable(text: nat)

  datatype Error =
    | AlreadyEnrolled | InvalidInput | PendingMissing | PendingMismatch | ConsentMissing | ConsentMismatch
    | GenerationMismatch | MarkerInvalid | MarkerMismatch | ActiveMissing | ActiveMismatch
    | MarkerChanged | SnapshotMissing | SnapshotInvalid | RecoveryNeeded

  // ---- Classification and decoding ----

  predicate Version2(v: Value) { v.Credential? || v.LegacyCube? }

  /** The store's own test for "an active credential of this origin". */
  predicate IsActive(v: Value, origin: Origin) { Version2(v) && v.origin == origin }

  function ActiveOf(accounts: Accounts, origin: Origin): Accounts {
    map k | k in accounts && IsActive(accounts[k], origin) :: accounts[k]
  }

  function WithoutActive(accounts: Accounts, origin: Origin): Accounts {
    map k | k in accounts && !IsActive(accounts[k], origin) :: accounts[k]
  }

  function Remove(accounts: Accounts, gone: set<Account>): Accounts { accounts - gone }

  predicate BindingFits(r: PendingRecord) {
    r.binding.Some? ==>
      && r.binding.value.endpoint == r.origin
      && r.binding.value.trust == r.trust
      && (r.capability.Some? ==>
        && r.capability.value.endpoint == r.origin
        && r.capability.value.trust == r.trust
        && r.capability.value.retryKey == r.retryKey
        && r.capability.value.artifact == r.binding.value.artifact
        && r.capability.value.caSpki == r.binding.value.caSpki)
  }

  function DecodePending(v: Value, origin: Origin, trust: Trust): Option<PendingRecord> {
    if v.Pending? && v.rec.origin == origin && v.rec.trust == trust && BindingFits(v.rec) then Some(v.rec) else None
  }

  function DecodeMarker(v: Value): Option<Marker> {
    if v.Accepted? && (v.marker.previous.Some? ==> v.marker.previous.value.origin == v.marker.origin)
    then Some(v.marker) else None
  }

  /** A snapshot may hold only version-2 records of the marker's origin, each under its own key. */
  predicate OwnKeys(active: Accounts, origin: Origin) {
    forall k :: k in active ==> IsActive(active[k], origin) && k == CredentialAccount(origin, active[k].trust)
  }

  predicate RollbackDecodes(v: Value, m: Marker) {
    && v == m.rollbackDigest
    && v.Rollback? && v.snapshotOrigin == m.origin
    && OwnKeys(v.active, m.origin)
    && v.pendingValue.Pending?
    && var p := v.pendingValue.rec;
    && BindingFits(p)
    && p.origin == m.origin && p.trust == m.trust
    && v.pendingAccount == PendingAccount(m.origin, m.trust)
    && m.rollbackAccount == RollbackAccount(m.origin, p.retryKey)
  }

  // ---- Operations ----

  function StoreCredential(accounts: Accounts, c: Value): Result<Accounts, Error>
    requires c.Credential?
  {
    var target := CredentialAccount(c.origin, c.trust);
    if target in accounts || ActiveOf(accounts, c.origin) != map[] then Err(AlreadyEnrolled)
    else Ok(accounts[target := c])
  }

  datatype CreateInput = CreateInput(
    origin: Origin, trust: Trust, invitation: Secret, clientName: Option<nat>, binding: Option<Binding>)

  /** Values drawn at random by one call. */
  datatype Drawn = Drawn(retryKey: Uuid, secret: Secret, token: Uuid)

  function Mint(accounts: Accounts, input: CreateInput, drawn: Drawn): Capability
    requires input.binding.Some?
  {
    Capability(drawn.token, ActiveOf(accounts, input.origin), input.origin,
      input.binding.value.caSpki, input.trust, drawn.retryKey, input.binding.value.artifact)
  }

  function NewPending(accounts: Accounts, input: CreateInput, mint: bool, drawn: Drawn): PendingRecord
    requires mint ==> input.binding.Some?
  {
    PendingRecord(input.origin, input.trust, input.invitation, drawn.retryKey, drawn.secret,
      input.clientName, input.binding, if mint then Some(Mint(accounts, input, drawn)) else None)
  }

  function CreatePending(accounts: Accounts, input: CreateInput, mint: bool, drawn: Drawn): Result<(Accounts, PendingRecord), Error> {
    if input.binding.Some? && input.binding.value.artifact != input.invitation then Err(InvalidInput)
    else if mint && input.binding.None? then Err(InvalidInput)
    else
      var account := PendingAccount(input.origin, input.trust);
      if account in accounts then
        var stored := DecodePending(accounts[account], input.origin, input.trust);
        if stored.None? || stored.value.invitation != input.invitation || stored.value.clientName != input.clientName
          || stored.value.binding != input.binding || (mint && stored.value.capability.None?)
        then Err(PendingMismatch)
        else Ok((accounts, stored.value))
      else
        var rec := NewPending(accounts, input, mint, drawn);
        Ok((accounts[account := Pending(rec)], rec))
  }

  datatype ActivateInput = ActivateInput(
    origin: Origin, trust: Trust, retryKey: Uuid, secret: Secret, clientId: Uuid, createCube: bool,
    generation: Option<Hex>, previous: Option<Pointer>, token: Option<Uuid>)

  /** The stored pending tuple an activation answers, if it matches exactly. */
  function MatchingPending(accounts: Accounts, input: ActivateInput): Result<PendingRecord, Error> {
    var account := PendingAccount(input.origin, input.trust);
    if account !in accounts then Err(PendingMissing)
    else
      var p := DecodePending(accounts[account], input.origin, input.trust);
      if p.None? || p.value.retryKey != input.retryKey || p.value.secret != input.secret then Err(PendingMismatch)
      else Ok(p.value)
  }

  /** May this activation replace what the origin has now? */
  function ConsentProblem(accounts: Accounts, p: PendingRecord, input: ActivateInput): Option<Error> {
    if ActiveOf(accounts, input.origin) != map[] then
      if p.capability.None? || input.token != Some(p.capability.value.token) then Some(ConsentMissing)
      else
        var c := p.capability.value;
        if c.prior != ActiveOf(accounts, input.origin) || c.endpoint != input.origin || c.trust != input.trust
          || c.retryKey != input.retryKey || p.binding.None?
          || c.artifact != p.binding.value.artifact || c.caSpki != p.binding.value.caSpki
        then Some(ConsentMismatch)
        else None
    else if input.token.Some? then Some(ConsentMismatch)
    else None
  }

  function GenerationOf(p: PendingRecord, input: ActivateInput): Option<Hex> {
    if input.generation.Some? then input.generation
    else if p.binding.Some? then Some(p.binding.value.stagedGeneration)
    else None
  }

  function NewCredential(input: ActivateInput): Value {
    Credential(input.origin, input.trust, input.secret, Some(input.clientId), input.createCube)
  }

  function SnapshotFor(accounts: Accounts, input: ActivateInput): Value
    requires PendingAccount(input.origin, input.trust) in accounts
  {
    var pending := PendingAccount(input.origin, input.trust);
    Rollback(input.origin, ActiveOf(accounts, input.origin), pending, accounts[pending])
  }

  function MarkerFor(accounts: Accounts, input: ActivateInput, generation: Hex): Marker
    requires PendingAccount(input.origin, input.trust) in accounts
  {
    Marker(input.origin, input.trust, generation, input.previous, NewCredential(input),
      RollbackAccount(input.origin, input.retryKey), SnapshotFor(accounts, input))
  }

  /** The store with the new credential in place of the old ones and of the pending tuple. */
  function Replaced(accounts: Accounts, input: ActivateInput): Accounts {
    Remove(WithoutActive(accounts, input.origin)[CredentialAccount(input.origin, input.trust) := NewCredential(input)],
      {PendingAccount(input.origin, input.trust)})
  }

  function Activated(accounts: Accounts, input: ActivateInput, generation: Hex): Accounts
    requires PendingAccount(input.origin, input.trust) in accounts
  {
    Replaced(accounts, input)
      [RollbackAccount(input.origin, input.retryKey) := SnapshotFor(accounts, input)]
      [MarkerAccount(input.origin) := Accepted(MarkerFor(accounts, input, generation))]
  }

  function Activate(accounts: Accounts, input: ActivateInput): Result<Accounts, Error> {
    var p := MatchingPending(accounts, input);
    if p.Err? then Err(p.error)
    else
      var problem := ConsentProblem(accounts, p.value, input);
      var generation := GenerationOf(p.value, input);
      if problem.Some? then Err(problem.value)
      else if p.value.binding.Some? && generation != Some(p.value.binding.value.stagedGeneration) then Err(GenerationMismatch)
      else if generation.None? then Ok(Replaced(accounts, input))
      else Ok(Activated(accounts, input, generation.value))
  }

  function Finalize(accounts: Accounts, origin: Origin, trust: Trust, generation: Hex): Result<Accounts, Error> {
    if MarkerAccount(origin) !in accounts then Ok(accounts)
    else
      var m := DecodeMarker(accounts[MarkerAccount(origin)]);
      var active := CredentialAccount(origin, trust);
      if m.None? then Err(MarkerInvalid)
      else if m.value.trust != trust || m.value.generation != generation then Err(MarkerMismatch)
      else if active !in accounts then Err(ActiveMissing)
      else if accounts[active] != m.value.activeDigest || !accounts[active].Credential?
        || accounts[active].origin != origin || accounts[active].trust != trust
      then Err(ActiveMismatch)
      else Ok(Remove(accounts, {MarkerAccount(origin), m.value.rollbackAccount}))
  }

  function Restore(accounts: Accounts, m: Marker): Result<Accounts, Error> {
    if MarkerAccount(m.origin) !in accounts || DecodeMarker(accounts[MarkerAccount(m.origin)]) != Some(m) then Err(MarkerChanged)
    else if m.rollbackAccount !in accounts then Err(SnapshotMissing)
    else
      var r := accounts[m.rollbackAccount];
      if !RollbackDecodes(r, m) then Err(SnapshotInvalid)
      else
        var next := (WithoutActive(accounts, m.origin) + r.active)[r.pendingAccount := r.pendingValue];
        Ok(Remove(next, {MarkerAccount(m.origin), m.rollbackAccount}))
  }

  function ClearPending(accounts: Accounts, origin: Origin, trust: Trust, retryKey: Uuid): Accounts {
    var account := PendingAccount(origin, trust);
    if account !in accounts then accounts
    else
      var p := DecodePending(accounts[account], origin, trust);
      if p.None? || p.value.retryKey != retryKey then accounts else Remove(accounts, {account})
  }

  function ClearCredential(accounts: Accounts, origin: Origin, trust: Trust): Accounts {
    Remove(accounts, {CredentialAccount(origin, trust), PendingAccount(origin, trust)})
  }

  /** Refused while a marker exists; otherwise removes exactly the reviewed pending tuple. */
  function ClearTransaction(accounts: Accounts, expected: PendingRecord): Result<(Accounts, bool), Error> {
    var account := PendingAccount(expected.origin, expected.trust);
    if MarkerAccount(expected.origin) in accounts then Err(RecoveryNeeded)
    else if account !in accounts then Ok((accounts, false))
    else if DecodePending(accounts[account], expected.origin, expected.trust) != Some(expected) then Ok((accounts, false))
    else Ok((Remove(accounts, {account}), true))
  }

  // ---- Rollback is the inverse of activation ----

  predicate ActivatesWith(accounts: Accounts, input: ActivateInput, generation: Hex) {
    && MatchingPending(accounts, input).Ok?
    && GenerationOf(MatchingPending(accounts, input).value, input) == Some(generation)
    && Activate(accounts, input).Ok?
    && (input.previous.Some? ==> input.previous.value.origin == input.origin)
  }

  /** Restoring an activation is accepted exactly when every version-2 record it replaced sat under its own credential key. */
  lemma RestoreAcceptedIff(accounts: Accounts, input: ActivateInput, generation: Hex)
    requires ActivatesWith(accounts, input, generation)
    ensures Restore(Activate(accounts, input).value, MarkerFor(accounts, input, generation)).Ok?
       <==> OwnKeys(ActiveOf(accounts, input.origin), input.origin)
    ensures Restore(Activate(accounts, input).value, MarkerFor(accounts, input, generation)).Err?
       ==> Restore(Activate(accounts, input).value, MarkerFor(accounts, input, generation)) == Err(SnapshotInvalid)
  {
  }

  /** No trace of an earlier transaction, and nothing foreign under the new credential's key. */
  predicate CleanFor(accounts: Accounts, input: ActivateInput) {
    var target := CredentialAccount(input.origin, input.trust);
    && MarkerAccount(input.origin) !in accounts
    && RollbackAccount(input.origin, input.retryKey) !in accounts
    && (target in accounts ==> IsActive(accounts[target], input.origin))
  }

  lemma RestoredContents(accounts: Accounts, input: ActivateInput, generation: Hex)
    requires ActivatesWith(accounts, input, generation)
    requires OwnKeys(ActiveOf(accounts, input.origin), input.origin)
    ensures
      var back := Restore(Activate(accounts, input).value, MarkerFor(accounts, input, generation)).value;
      && (forall k :: k in back <==>
        (&& k in accounts
         && k != MarkerAccount(input.origin) && k != RollbackAccount(input.origin, input.retryKey)
         && (k == CredentialAccount(input.origin, input.trust) ==> IsActive(accounts[k], input.origin))))
      && (forall k :: k in back ==> back[k] == accounts[k])
  {
  }

  /**
   * Activating with a generation and then restoring with its marker gives back
   * exactly the original store, every account of every origin included, if and
   * only if the replaced records sat under their own keys and the store was
   * clean for this transaction.
   */
  lemma RollbackIsInverseIff(accounts: Accounts, input: ActivateInput, generation: Hex)
    requires ActivatesWith(accounts, input, generation)
    ensures Restore(Activate(accounts, input).value, MarkerFor(accounts, input, generation)) == Ok(accounts)
       <==> OwnKeys(ActiveOf(accounts, input.origin), input.origin) && CleanFor(accounts, input)
  {
    RestoreAcceptedIff(accounts, input, generation);
    if OwnKeys(ActiveOf(accounts, input.origin), input.origin) {
      RestoredContents(accounts, input, generation);
      var back := Restore(Activate(accounts, input).value, MarkerFor(accounts, input, generation)).value;
      if CleanFor(accounts, input) {
        assert back == accounts;
      }
    }
  }

  /** Finalizing instead leaves the replaced store with no trace of the transaction. */
  lemma FinalizeCommits(accounts: Accounts, input: ActivateInput, generation: Hex)
    requires ActivatesWith(accounts, input, generation) && CleanFor(accounts, input)
    ensures Finalize(Activate(accounts, input).value, input.origin, input.trust, generation) == Ok(Replaced(accounts, input))
  {
    var next := Activate(accounts, input).value;
    var done := Finalize(next, input.origin, input.trust, generation);
    assert done.value == Replaced(accounts, input);
  }

  /** A legacy cube-creation record shares the version number: the origin can activate, and can then never be restored. */
  lemma LegacyCubeBlocksRestore(accounts: Accounts, input: ActivateInput, generation: Hex, k: Account)
    requires ActivatesWith(accounts, input, generation)
    requires k in accounts && accounts[k].LegacyCube? && accounts[k].origin == input.origin && k.OtherAccount?
    ensures Restore(Activate(accounts, input).value, MarkerFor(accounts, input, generation)) == Err(SnapshotInvalid)
  {
    RestoreAcceptedIff(accounts, input, generation);
    assert k in ActiveOf(accounts, input.origin);
  }

  // ---- The invariant over every sequence of operations ----

  /** Every version-2 record is a credential of its own origin under its own key. */
  predicate Keyed(accounts: Accounts) {
    forall k :: k in accounts && Version2(accounts[k]) ==> k == CredentialAccount(accounts[k].origin, accounts[k].trust)
  }

  predicate OneActive(accounts: Accounts) {
    forall j, k | j in accounts && k in accounts && Version2(accounts[j]) && Version2(accounts[k]) ::
      accounts[j].origin == accounts[k].origin ==> j == k
  }

  /** What a marker needs so that its restore is accepted, and puts back at most one credential. */
  predicate Recoverable(accounts: Accounts, o: Origin) {
    MarkerAccount(o) in accounts ==>
      && DecodeMarker(accounts[MarkerAccount(o)]).Some?
      && var m := accounts[MarkerAccount(o)].marker;
      && m.origin == o
      && m.rollbackAccount in accounts
      && RollbackDecodes(accounts[m.rollbackAccount], m)
      && forall j, k :: j in m.rollbackDigest.active && k in m.rollbackDigest.active ==> j == k
  }

  ghost predicate WellFormed(accounts: Accounts) {
    Keyed(accounts) && OneActive(accounts) && forall o :: Recoverable(accounts, o)
  }

  // ---- When each operation succeeds, and what it leaves ----

  /** Outside `but` the two stores hold the same. */
  ghost predicate SameBut(before: Accounts, after: Accounts, but: set<Account>) {
    forall k | k !in but :: (k in before <==> k in after) && (k in before ==> after[k] == before[k])
  }

  /** The origin has a version-2 record somewhere in the store. */
  predicate Enrolled(accounts: Accounts, origin: Origin) {
    exists k :: k in accounts && (accounts[k].Credential? || accounts[k].LegacyCube?) && accounts[k].origin == origin
  }

  lemma EnrolledIff(accounts: Accounts, origin: Origin)
    ensures Enrolled(accounts, origin) <==> ActiveOf(accounts, origin) != map[]
  {
    if Enrolled(accounts, origin) {
      var k :| k in accounts && (accounts[k].Credential? || accounts[k].LegacyCube?) && accounts[k].origin == origin;
      assert k in ActiveOf(accounts, origin);
    }
    assert forall k :: k in ActiveOf(accounts, origin) ==> k in accounts && IsActive(accounts[k], origin);
  }

  /** `records` are exactly the origin's version-2 records in the store. */
  ghost predicate RecordsOf(records: Accounts, accounts: Accounts, origin: Origin) {
    && (forall k :: k in records <==>
      (k in accounts && (accounts[k].Credential? || accounts[k].LegacyCube?) && accounts[k].origin == origin))
    && (forall k :: k in records ==> records[k] == accounts[k])
  }

  /** A credential is stored exactly when the origin has none and its account is free; nothing else changes. */
  lemma StoresIff(accounts: Accounts, c: Value)
    requires c.Credential?
    ensures StoreCredential(accounts, c).Ok?
       <==> CredentialAccount(c.origin, c.trust) !in accounts && !Enrolled(accounts, c.origin)
    ensures StoreCredential(accounts, c).Ok? ==>
      var now := StoreCredential(accounts, c).value;
      && CredentialAccount(c.origin, c.trust) in now && now[CredentialAccount(c.origin, c.trust)] == c
      && SameBut(accounts, now, {CredentialAccount(c.origin, c.trust)})
  {
    EnrolledIff(accounts, c.origin);
  }

  /** The readable pending record of an origin and trust, if it is that. */
  predicate Stored(accounts: Accounts, p: PendingRecord) {
    var at := PendingAccount(p.origin, p.trust);
    at in accounts && accounts[at] == Pending(p) && BindingFits(p)
  }

  /** The stored tuple serves this request again. */
  predicate Serves(p: PendingRecord, input: CreateInput, mint: bool) {
    && p.origin == input.origin && p.trust == input.trust
    && p.invitation == input.invitation && p.clientName == input.clientName && p.binding == input.binding
    && (mint ==> p.capability.Some?)
  }

  /** The consent a first create mints: over exactly the origin's records of that moment. */
  ghost predicate ConsentOver(c: Capability, accounts: Accounts, input: CreateInput, drawn: Drawn) {
    && RecordsOf(c.prior, accounts, input.origin)
    && c.token == drawn.token && c.retryKey == drawn.retryKey
    && c.endpoint == input.origin && c.trust == input.trust
    && input.binding.Some? && c.artifact == input.invitation && c.caSpki == input.binding.value.caSpki
  }

  predicate ProperRequest(input: CreateInput, mint: bool) {
    && (input.binding.Some? ==> input.binding.value.artifact == input.invitation)
    && (mint ==> input.binding.Some?)
  }

  /** The new tuple carries the request, the drawn key and bearer, and a consent exactly when one was asked for. */
  lemma FirstCreateStores(accounts: Accounts, input: CreateInput, mint: bool, drawn: Drawn)
    requires PendingAccount(input.origin, input.trust) !in accounts
    ensures CreatePending(accounts, input, mint, drawn).Ok? <==> ProperRequest(input, mint)
    ensures ProperRequest(input, mint) ==>
      var (now, rec) := CreatePending(accounts, input, mint, drawn).value;
      var at := PendingAccount(input.origin, input.trust);
      && at in now && now[at] == Pending(rec) && SameBut(accounts, now, {at})
      && rec.retryKey == drawn.retryKey && rec.secret == drawn.secret
      && Serves(rec, input, mint)
      && (rec.capability.Some? <==> mint)
      && (mint ==> ConsentOver(rec.capability.value, accounts, input, drawn))
  {
  }

  /** A repeated create draws nothing: it returns the stored tuple, exactly when that serves the request. */
  lemma RepeatedCreateIff(accounts: Accounts, input: CreateInput, mint: bool, drawn: Drawn)
    requires PendingAccount(input.origin, input.trust) in accounts
    ensures CreatePending(accounts, input, mint, drawn).Ok? <==>
      (&& ProperRequest(input, mint)
       && exists p :: Stored(accounts, p) && Serves(p, input, mint))
    ensures CreatePending(accounts, input, mint, drawn).Ok? ==>
      var (now, rec) := CreatePending(accounts, input, mint, drawn).value;
      now == accounts && Stored(accounts, rec) && Serves(rec, input, mint)
  {
    var r := CreatePending(accounts, input, mint, drawn);
    if r.Ok? { assert Stored(accounts, r.value.1); }
  }

  /**
   * The pending record that an activation may answer: same retry key and same
   * bearer, with consent over exactly the records it replaces, or nothing to
   * replace and no consent given; and the generation that was staged, if one was.
   */
  ghost predicate Answers(accounts: Accounts, p: PendingRecord, input: ActivateInput) {
    && Stored(accounts, p)
    && p.origin == input.origin && p.trust == input.trust
    && p.retryKey == input.retryKey && p.secret == input.secret
    && (input.token.Some? <==> Enrolled(accounts, input.origin))
    && (input.token.Some? ==>
      && p.capability.Some? && p.binding.Some?
      && input.token == Some(p.capability.value.token)
      && RecordsOf(p.capability.value.prior, accounts, input.origin))
    && (p.binding.Some? && input.generation.Some? ==> input.generation.value == p.binding.value.stagedGeneration)
  }

  lemma ActivatesIff(accounts: Accounts, input: ActivateInput)
    ensures Activate(accounts, input).Ok? <==> exists p :: Answers(accounts, p, input)
  {
    EnrolledIff(accounts, input.origin);
    var m := MatchingPending(accounts, input);
    if m.Ok? { ConsentIff(accounts, m.value, input); }
    if Activate(accounts, input).Ok? { assert Answers(accounts, m.value, input); }
    if p :| Answers(accounts, p, input) { assert m == Ok(p); }
  }

  lemma ConsentIff(accounts: Accounts, p: PendingRecord, input: ActivateInput)
    requires MatchingPending(accounts, input) == Ok(p)
    ensures ConsentProblem(accounts, p, input).None? <==>
      (&& (input.token.Some? <==> Enrolled(accounts, input.origin))
       && (input.token.Some? ==>
         && p.capability.Some? && p.binding.Some?
         && input.token == Some(p.capability.value.token)
         && RecordsOf(p.capability.value.prior, accounts, input.origin)))
  {
    EnrolledIff(accounts, input.origin);
    var active := ActiveOf(accounts, input.origin);
    assert RecordsOf(active, accounts, input.origin);
    if p.capability.Some? && RecordsOf(p.capability.value.prior, accounts, input.origin) {
      assert p.capability.value.prior == active;
    }
  }

  /** What an accepted transaction keeps to restore from: the marker, and the snapshot it points to. */
  ghost predicate Marked(before: Accounts, now: Accounts, input: ActivateInput, generation: Hex) {
    var marker, rollback := MarkerAccount(input.origin), RollbackAccount(input.origin, input.retryKey);
    && marker in now && rollback in now && now[marker].Accepted? && now[rollback].Rollback?
    && var m := now[marker].marker;
    && m.origin == input.origin && m.trust == input.trust && m.generation == generation && m.previous == input.previous
    && m.activeDigest == Credential(input.origin, input.trust, input.secret, Some(input.clientId), input.createCube)
    && m.rollbackAccount == rollback && m.rollbackDigest == now[rollback]
    && var s := now[rollback];
    && s.snapshotOrigin == input.origin && RecordsOf(s.active, before, input.origin)
    && s.pendingAccount == PendingAccount(input.origin, input.trust)
    && s.pendingAccount in before && s.pendingValue == before[s.pendingAccount]
  }

  /** The generation of the staged trust, or else the one the caller names. */
  function Named(p: PendingRecord, input: ActivateInput): Option<Hex> {
    if p.binding.Some? then Some(p.binding.value.stagedGeneration) else input.generation
  }

  /** Outside `but` the origin's version-2 records are gone, and all else is as before. */
  ghost predicate Replaces(before: Accounts, now: Accounts, origin: Origin, but: set<Account>) {
    forall k | k !in but ::
      && (k in now <==> (k in before && !(Version2(before[k]) && before[k].origin == origin)))
      && (k in now ==> now[k] == before[k])
  }

  /**
   * A successful activation stores, under the origin's and trust's own account,
   * exactly the verified bearer with the verified client and permission.  It is
   * the origin's only version-2 record, the pending tuple is gone, a named
   * generation leaves its marker and snapshot, and everything else is as before.
   */
  lemma ActivateStores(accounts: Accounts, p: PendingRecord, input: ActivateInput)
    requires Answers(accounts, p, input)
    ensures Activate(accounts, input).Ok?
    ensures
      var now := Activate(accounts, input).value;
      var target, pending := CredentialAccount(input.origin, input.trust), PendingAccount(input.origin, input.trust);
      var marker, rollback := MarkerAccount(input.origin), RollbackAccount(input.origin, input.retryKey);
      var credential := Credential(input.origin, input.trust, input.secret, Some(input.clientId), input.createCube);
      && RecordsOf(map[target := credential], now, input.origin)
      && pending !in now
      && Replaces(accounts, now, input.origin, {target, pending} + if Named(p, input).Some? then {marker, rollback} else {})
      && (Named(p, input).Some? ==> Marked(accounts, now, input, Named(p, input).value))
  {
    ActivatesIff(accounts, input);
    assert MatchingPending(accounts, input) == Ok(p);
  }

  /** The marker of an origin and its credential fit together for this commit. */
  predicate Commits(accounts: Accounts, origin: Origin, trust: Trust, generation: Hex) {
    var marker, active := MarkerAccount(origin), CredentialAccount(origin, trust);
    && marker in accounts && accounts[marker].Accepted?
    && var m := accounts[marker].marker;
    && (m.previous.Some? ==> m.previous.value.origin == m.origin)
    && m.trust == trust && m.generation == generation
    && active in accounts && accounts[active] == m.activeDigest
    && m.activeDigest.Credential? && m.activeDigest.origin == origin && m.activeDigest.trust == trust
  }

  /** Without a marker nothing happens; otherwise the marker and its snapshot go, exactly when marker and credential fit. */
  lemma FinalizesIff(accounts: Accounts, origin: Origin, trust: Trust, generation: Hex)
    ensures Finalize(accounts, origin, trust, generation).Ok?
       <==> MarkerAccount(origin) !in accounts || Commits(accounts, origin, trust, generation)
    ensures MarkerAccount(origin) !in accounts ==> Finalize(accounts, origin, trust, generation) == Ok(accounts)
    ensures Commits(accounts, origin, trust, generation) ==>
      var now := Finalize(accounts, origin, trust, generation).value;
      var snapshot := accounts[MarkerAccount(origin)].marker.rollbackAccount;
      && MarkerAccount(origin) !in now && snapshot !in now
      && SameBut(accounts, now, {MarkerAccount(origin), snapshot})
  {
  }

  /**
   * A restore is accepted exactly for the stored marker with its own intact
   * snapshot; then the origin's records are the snapshot's, its pending tuple is
   * back, marker and snapshot are gone, and everything else is as before.
   */
  lemma RestoresIff(accounts: Accounts, m: Marker)
    ensures Restore(accounts, m).Ok? <==>
      (&& MarkerAccount(m.origin) in accounts && accounts[MarkerAccount(m.origin)] == Accepted(m)
       && (m.previous.Some? ==> m.previous.value.origin == m.origin)
       && m.rollbackAccount in accounts && RollbackDecodes(accounts[m.rollbackAccount], m))
    ensures Restore(accounts, m).Ok? ==>
      var now, s := Restore(accounts, m).value, accounts[m.rollbackAccount];
      && RecordsOf(s.active, now, m.origin)
      && s.pendingAccount in now && now[s.pendingAccount] == s.pendingValue
      && MarkerAccount(m.origin) !in now && m.rollbackAccount !in now
      && Replaces(accounts, now, m.origin, s.active.Keys + {s.pendingAccount, MarkerAccount(m.origin), m.rollbackAccount})
  {
  }

  /** Clearing a rejected attempt removes its tuple exactly when it is stored under that retry key, and nothing else. */
  lemma ClearsPendingIff(accounts: Accounts, origin: Origin, trust: Trust, retryKey: Uuid)
    ensures
      var now := ClearPending(accounts, origin, trust, retryKey);
      var at := PendingAccount(origin, trust);
      && SameBut(accounts, now, {at})
      && (at in now ==> now[at] == accounts[at])
      && (at in accounts && at !in now <==>
        exists p :: Stored(accounts, p) && p.origin == origin && p.trust == trust && p.retryKey == retryKey)
      && (at in now ==> at in accounts)
  {
    var at := PendingAccount(origin, trust);
    if at in accounts && at !in ClearPending(accounts, origin, trust, retryKey) {
      assert Stored(accounts, accounts[at].rec);
    }
  }

  /** Signing out removes the credential and the pending tuple of one origin and trust, whatever they hold. */
  lemma ClearsCredential(accounts: Accounts, origin: Origin, trust: Trust)
    ensures
      var now := ClearCredential(accounts, origin, trust);
      var credential, pending := CredentialAccount(origin, trust), PendingAccount(origin, trust);
      credential !in now && pending !in now && SameBut(accounts, now, {credential, pending})
  {
  }

  /**
   * A reviewed transaction is cleared exactly when no marker needs recovery
   * first and the stored tuple is still the reviewed one in every field.
   */
  lemma ClearsTransactionIff(accounts: Accounts, expected: PendingRecord)
    ensures ClearTransaction(accounts, expected).Ok? <==> MarkerAccount(expected.origin) !in accounts
    ensures ClearTransaction(accounts, expected).Ok? ==>
      var (now, cleared) := ClearTransaction(accounts, expected).value;
      var at := PendingAccount(expected.origin, expected.trust);
      && (cleared <==> Stored(accounts, expected))
      && (if cleared then at !in now && SameBut(accounts, now, {at}) else now == accounts)
  {
  }

  datatype Op =
    | DoStore(c: Value)
    | DoCreate(create: CreateInput, mint: bool, drawn: Drawn)
    | DoActivate(input: ActivateInput)
    | DoFinalize(origin: Origin, trust: Trust, generation: Hex)
    | DoRestore(marker: Marker)
    | DoClearPending(origin: Origin, trust: Trust, retryKey: Uuid)
    | DoClearCredential(origin: Origin, trust: Trust)
    | DoClearTransaction(expected: PendingRecord)

  /** The callers' promises: a credential is stored, and the previous pointer is the origin's. */
  predicate Sound(op: Op) {
    && (op.DoStore? ==> op.c.Credential?)
    && (op.DoActivate? && op.input.previous.Some? ==> op.input.previous.value.origin == op.input.origin)
  }

  /** A refused operation leaves the store alone. */
  function Apply(accounts: Accounts, op: Op): Accounts
    requires Sound(op)
  {
    match op
    case DoStore(c) => Kept(accounts, StoreCredential(accounts, c))
    case DoCreate(input, mint, drawn) =>
      var r := CreatePending(accounts, input, mint, drawn);
      if r.Ok? then r.value.0 else accounts
    case DoActivate(input) => Kept(accounts, Activate(accounts, input))
    case DoFinalize(origin, trust, generation) => Kept(accounts, Finalize(accounts, origin, trust, generation))
    case DoRestore(marker) => Kept(accounts, Restore(accounts, marker))
    case DoClearPending(origin, trust, retryKey) => ClearPending(accounts, origin, trust, retryKey)
    case DoClearCredential(origin, trust) => ClearCredential(accounts, origin, trust)
    case DoClearTransaction(expected) =>
      var r := ClearTransaction(accounts, expected);
      if r.Ok? then r.value.0 else accounts
  }

  function Kept(accounts: Accounts, r: Result<Accounts, Error>): Accounts {
    if r.Ok? then r.value else accounts
  }

  function OriginOf(op: Op): Origin {
    match op
    case DoStore(c) => if Version2(c) then c.origin else 0
    case DoCreate(input, _, _) => input.origin
    case DoActivate(input) => input.origin
    case DoFinalize(origin, _, _) => origin
    case DoRestore(marker) => marker.origin
    case DoClearPending(origin, _, _) => origin
    case DoClearCredential(origin, _) => origin
    case DoClearTransaction(expected) => expected.origin
  }

  /** The account belongs to another origin, or to nobody. */
  predicate Foreign(k: Account, o: Origin) { k.OtherAccount? || k.origin != o }

  /** No operation touches an account of another origin. */
  lemma OtherOriginsUntouched(accounts: Accounts, op: Op, k: Account)
    requires WellFormed(accounts) && Sound(op) && Foreign(k, OriginOf(op))
    ensures k in Apply(accounts, op) <==> k in accounts
    ensures k in accounts ==> Apply(accounts, op)[k] == accounts[k]
  {
    assert Recoverable(accounts, OriginOf(op));
  }

  lemma KeysKept(accounts: Accounts, op: Op)
    requires WellFormed(accounts) && Sound(op)
    ensures Keyed(Apply(accounts, op))
  {
    assert Recoverable(accounts, OriginOf(op));
  }

  lemma OneActiveKept(accounts: Accounts, op: Op)
    requires WellFormed(accounts) && Sound(op)
    ensures OneActive(Apply(accounts, op))
  {
    assert Recoverable(accounts, OriginOf(op));
    KeysKept(accounts, op);
    if op.DoStore? {
      var c := op.c;
      forall k | k in accounts && IsActive(accounts[k], c.origin)
        ensures ActiveOf(accounts, c.origin) != map[]
      {
        assert k in ActiveOf(accounts, c.origin);
      }
    }
  }

  lemma ForeignRecoverable(accounts: Accounts, op: Op, o: Origin)
    requires WellFormed(accounts) && Sound(op) && o != OriginOf(op)
    ensures Recoverable(Apply(accounts, op), o)
  {
    assert Recoverable(accounts, o);
    OtherOriginsUntouched(accounts, op, MarkerAccount(o));
    if MarkerAccount(o) in accounts {
      OtherOriginsUntouched(accounts, op, accounts[MarkerAccount(o)].marker.rollbackAccount);
    }
  }

  lemma SnapshotHoldsAtMostOne(accounts: Accounts, o: Origin)
    requires OneActive(accounts)
    ensures forall j, k :: j in ActiveOf(accounts, o) && k in ActiveOf(accounts, o) ==> j == k
  {
  }

  lemma OwnRecoverable(accounts: Accounts, op: Op)
    requires WellFormed(accounts) && Sound(op)
    ensures Recoverable(Apply(accounts, op), OriginOf(op))
  {
    var o := OriginOf(op);
    assert Recoverable(accounts, o);
    SnapshotHoldsAtMostOne(accounts, o);
  }

  lemma StepKeepsWellFormed(accounts: Accounts, op: Op)
    requires WellFormed(accounts) && Sound(op)
    ensures WellFormed(Apply(accounts, op))
  {
    KeysKept(accounts, op);
    OneActiveKept(accounts, op);
    forall o
      ensures Recoverable(Apply(accounts, op), o)
    {
      if o == OriginOf(op) { OwnRecoverable(accounts, op); } else { ForeignRecoverable(accounts, op, o); }
    }
  }

  function ApplyAll(accounts: Accounts, ops: seq<Op>): Accounts
    requires forall op :: op in ops ==> Sound(op)
    decreases |ops|
  {
    if ops == [] then accounts else ApplyAll(Apply(accounts, ops[0]), ops[1..])
  }

  /**
   * Over every sequence of operations from a well-formed store: at most one
   * credential per origin, every credential under its own key, and every
   * accepted marker's restore is accepted.
   */
  lemma {:induction false} StoreStaysWellFormed(accounts: Accounts, ops: seq<Op>)
    requires WellFormed(accounts) && forall op :: op in ops ==> Sound(op)
    ensures WellFormed(ApplyAll(accounts, ops))
    ensures forall o ::
      var now := ApplyAll(accounts, ops);
      MarkerAccount(o) in now ==> now[MarkerAccount(o)].Accepted? && Restore(now, now[MarkerAccount(o)].marker).Ok?
    decreases |ops|
  {
    if ops == [] {
      forall o | MarkerAccount(o) in accounts
        ensures accounts[MarkerAccount(o)].Accepted? && Restore(accounts, accounts[MarkerAccount(o)].marker).Ok?
      {
        assert Recoverable(accounts, o);
      }
    } else {
      StepKeepsWellFormed(accounts, ops[0]);
      StoreStaysWellFormed(Apply(accounts, ops[0]), ops[1..]);
    }
  }

  // ---- Consent covers exactly what is replaced ----

  /** `consents` remembers what each consent token was minted over. */
  datatype World = World(accounts: Accounts, consents: map<Uuid, map<Account, Value>>)

  /** A consent token is a fresh UUID. */
  predicate FreshDraw(w: World, op: Op) { op.DoCreate? && op.mint ==> op.drawn.token !in w.consents }

  function Live(w: World, op: Op): World
    requires Sound(op)
  {
    var next := Apply(w.accounts, op);
    var mints := op.DoCreate? && op.mint && CreatePending(w.accounts, op.create, op.mint, op.drawn).Ok?
      && PendingAccount(op.create.origin, op.create.trust) !in w.accounts;
    World(next, if mints then w.consents[op.drawn.token := ActiveOf(w.accounts, op.create.origin)] else w.consents)
  }

  predicate CapabilityRemembered(v: Value, consents: map<Uuid, map<Account, Value>>) {
    v.Pending? && v.rec.capability.Some? ==>
      v.rec.capability.value.token in consents && consents[v.rec.capability.value.token] == v.rec.capability.value.prior
  }

  /** Every capability, also inside a rollback snapshot, covers what its token was minted over. */
  predicate Remembered(w: World) {
    forall k :: k in w.accounts ==>
      && CapabilityRemembered(w.accounts[k], w.consents)
      && (w.accounts[k].Rollback? ==> CapabilityRemembered(w.accounts[k].pendingValue, w.consents))
  }

  lemma StepKeepsRemembered(w: World, op: Op)
    requires Remembered(w) && Sound(op) && FreshDraw(w, op)
    ensures Remembered(Live(w, op))
  {
    if op.DoRestore? && Restore(w.accounts, op.marker).Ok? {
      var r := w.accounts[op.marker.rollbackAccount];
      forall k | k in r.active
        ensures CapabilityRemembered(r.active[k], w.consents) && !r.active[k].Rollback?
      {
      }
    }
  }

  predicate Draws(w: World, ops: seq<Op>)
    requires forall op :: op in ops ==> Sound(op)
    decreases |ops|
  {
    ops != [] ==> FreshDraw(w, ops[0]) && Draws(Live(w, ops[0]), ops[1..])
  }

  function LiveAll(w: World, ops: seq<Op>): World
    requires forall op :: op in ops ==> Sound(op)
    decreases |ops|
  {
    if ops == [] then w else LiveAll(Live(w, ops[0]), ops[1..])
  }

  lemma {:induction false} RunKeepsRemembered(w: World, ops: seq<Op>)
    requires Remembered(w) && (forall op :: op in ops ==> Sound(op)) && Draws(w, ops)
    ensures Remembered(LiveAll(w, ops))
    decreases |ops|
  {
    if ops != [] {
      StepKeepsRemembered(w, ops[0]);
      RunKeepsRemembered(Live(w, ops[0]), ops[1..]);
    }
  }

  /**
   * Over every run, an activation that replaces credentials of an origin
   * succeeds only with a token that was minted over exactly the credentials it
   * replaces.  The run may start from any store, whatever its other records, in
   * which the stored capabilities are those minted before.
   */
  lemma ConsentCoversWhatIsReplaced(w0: World, ops: seq<Op>, input: ActivateInput)
    requires Remembered(w0) && (forall op :: op in ops ==> Sound(op)) && Draws(w0, ops)
    requires
      var w := LiveAll(w0, ops);
      Activate(w.accounts, input).Ok? && ActiveOf(w.accounts, input.origin) != map[]
    ensures
      var w := LiveAll(w0, ops);
      && input.token.Some? && input.token.value in w.consents
      && w.consents[input.token.value] == ActiveOf(w.accounts, input.origin)
  {
    RunKeepsRemembered(w0, ops);
    var w := LiveAll(w0, ops);
    assert CapabilityRemembered(w.accounts[PendingAccount(input.origin, input.trust)], w.consents);
  }

  /** Any store that holds no pending tuple and no snapshot, and no consent yet, is such a start. */
  lemma StartsRemembered(accounts: Accounts)
    requires forall k :: k in accounts ==> !accounts[k].Pending? && !accounts[k].Rollback?
    ensures Remembered(World(accounts, map[]))
  {
  }

  /** The operations that may take a pending tuple away or put an older one back. */
  predicate EndsPending(op: Op, origin: Origin, trust: Trust) {
    match op
    case DoActivate(input) => input.origin == origin && input.trust == trust
    case DoRestore(marker) => marker.origin == origin && marker.trust == trust
    case DoClearPending(o, t, _) => o == origin && t == trust
    case DoClearCredential(o, t) => o == origin && t == trust
    case DoClearTransaction(expected) => expected.origin == origin && expected.trust == trust
    case _ => false
  }

  /**
   * While a pending tuple is not answered or cleared, every later create for
   * it that succeeds returns the same tuple: same retry key, same bearer, same
   * consent.
   */
  lemma {:induction false} PendingTupleIsStable(accounts: Accounts, ops: seq<Op>, origin: Origin, trust: Trust, again: CreateInput, mint: bool, drawn: Drawn)
    requires WellFormed(accounts) && (forall op :: op in ops ==> Sound(op) && !EndsPending(op, origin, trust))
    requires PendingAccount(origin, trust) in accounts && accounts[PendingAccount(origin, trust)].Pending?
    requires again.origin == origin && again.trust == trust
    requires CreatePending(ApplyAll(accounts, ops), again, mint, drawn).Ok?
    ensures CreatePending(ApplyAll(accounts, ops), again, mint, drawn).value
         == (ApplyAll(accounts, ops), accounts[PendingAccount(origin, trust)].rec)
    decreases |ops|
  {
    if ops != [] {
      var op := ops[0];
      assert op in ops;
      StepKeepsWellFormed(accounts, op);
      PendingKept(accounts, op, origin, trust);
      PendingTupleIsStable(Apply(accounts, op), ops[1..], origin, trust, again, mint, drawn);
    }
  }

  lemma PendingKept(accounts: Accounts, op: Op, origin: Origin, trust: Trust)
    requires WellFormed(accounts) && Sound(op) && !EndsPending(op, origin, trust)
    requires PendingAccount(origin, trust) in accounts
    ensures PendingAccount(origin, trust) in Apply(accounts, op)
    ensures Apply(accounts, op)[PendingAccount(origin, trust)] == accounts[PendingAccount(origin, trust)]
  {
    assert Recoverable(accounts, OriginOf(op));
    if OriginOf(op) != origin { OtherOriginsUntouched(accounts, op, PendingAccount(origin, trust)); }
  }

  // ---- The store's own code ----

  class Backend {
    var accounts: Accounts

    constructor (accounts: Accounts)
      ensures this.accounts == accounts
    {
      this.accounts := accounts;
    }

    /** The copy-and-delete loop shared by activation and restore. */
    method DropActive(origin: Origin) returns (next: Accounts, dropped: Accounts)
      ensures next == WithoutActive(accounts, origin) && dropped == ActiveOf(accounts, origin)
    {
      next, dropped := accounts, map[];
      var rest := accounts.Keys;
      while rest != {}
        invariant rest <= accounts.Keys
        invariant next == map k | k in accounts && (k in rest || !IsActive(accounts[k], origin)) :: accounts[k]
        invariant dropped == map k | k in accounts && k !in rest && IsActive(accounts[k], origin) :: accounts[k]
        decreases rest
      {
        var account :| account in rest;
        if IsActive(accounts[account], origin) {
          dropped := dropped[account := accounts[account]];
          next := next - {account};
        }
        rest := rest - {account};
      }
    }

    method ActivatePending(input: ActivateInput) returns (r: Result<(), Error>)
      modifies this
      ensures r.Ok? <==> Activate(old(accounts), input).Ok?
      ensures r.Err? ==> Activate(old(accounts), input) == Err(r.error) && accounts == old(accounts)
      ensures r.Ok? ==> accounts == Activate(old(accounts), input).value
    {
      var pendingAccount := PendingAccount(input.origin, input.trust);
      if pendingAccount !in accounts { return Err(PendingMissing); }
      var stored := accounts[pendingAccount];
      var decoded := DecodePending(stored, input.origin, input.trust);
      if decoded.None? || decoded.value.retryKey != input.retryKey || decoded.value.secret != input.secret {
        return Err(PendingMismatch);
      }
      var pending := decoded.value;
      var problem := ConsentProblem(accounts, pending, input);
      if problem.Some? { return Err(problem.value); }
      var generation := GenerationOf(pending, input);
      if pending.binding.Some? && generation != Some(pending.binding.value.stagedGeneration) {
        return Err(GenerationMismatch);
      }
      var next, active := DropActive(input.origin);
      next := next[CredentialAccount(input.origin, input.trust) := NewCredential(input)];
      next := next - {pendingAccount};
      if generation.Some? {
        var rollbackAccount := RollbackAccount(input.origin, input.retryKey);
        var snapshot := Rollback(input.origin, active, pendingAccount, stored);
        next := next[rollbackAccount := snapshot];
        next := next[MarkerAccount(input.origin) := Accepted(Marker(input.origin, input.trust, generation.value,
          input.previous, NewCredential(input), rollbackAccount, snapshot))];
      }
      accounts := next;
      return Ok(());
    }

    method RestoreAccepted(m: Marker) returns (r: Result<(), Error>)
      modifies this
      ensures r.Err? ==> Restore(old(accounts), m) == Err(r.error) && accounts == old(accounts)
      ensures r.Ok? ==> Restore(old(accounts), m) == Ok(accounts)
    {
      var markerAccount := MarkerAccount(m.origin);
      if markerAccount !in accounts || DecodeMarker(accounts[markerAccount]) != Some(m) { return Err(MarkerChanged); }
      if m.rollbackAccount !in accounts { return Err(SnapshotMissing); }
      var rollback := accounts[m.rollbackAccount];
      if !RollbackDecodes(rollback, m) { return Err(SnapshotInvalid); }
      var next, _ := DropActive(m.origin);
      next := next + rollback.active;
      next := next[rollback.pendingAccount := rollback.pendingValue];
      next := next - {markerAccount, m.rollbackAccount};
      accounts := next;
      return Ok(());
    }
  }
}
