/** Actor assertions: the gates of crates/identity/src/actor_attestation.rs, the owner-pinned keys of
    crates/identity/src/actor_issuer_policy.rs and the owner-signed manifest of
    crates/identity/src/owner_manifest.rs, down to the replay store. */
module Identity {
  import opened Prelude
  import opened Words
  import opened Authorization
  import Replay

  type Byte = x: int | 0 <= x < 256

  type Bytes = seq<Byte>

  type Digest = Replay.Digest

  type Key = nat

  const MAX_ASSERTION_BYTES := 8192
  const MAX_REQUEST_BYTES := 1024 * 1024
  const MAX_LIFETIME := 60
  const MAX_SKEW := 15
  const MAX_KEYS := 32
  const MAX_MANIFEST_BYTES := 16 * 1024
  const MAX_MANIFEST_LIFETIME := 30 * 24 * 60 * 60
  const MAX_GENERATION := 9_007_199_254_740_991

  datatype Claims = Claims(
    contractVersion: string, issuer: string, keyId: string, alg: string, subject: string, clientId: string,
    audience: string, resource: string, deviceId: string, workspaceId: string, messageId: string, correlationId: string,
    requestSha256: string, channelBindingSha256: string, gatewayChallenge: string, connectionEpoch: string,
    issuedAt: Word, expiresAt: Word, nonce: string)

  datatype SignedClaims = SignedClaims(payload: Claims, signature: string)

  datatype CanonicalOperation = CanonicalOperation(
    operationMethod: string, tool: string, argumentsAreObject: bool, deviceId: string, workspaceId: string,
    messageId: string, correlationId: string, effect: string)

  datatype ExpectedRequest = ExpectedRequest(
    operation: Bytes, deviceId: string, workspaceId: string, messageId: string, correlationId: string,
    challenge: string, challengeIssuedAt: Word, challengeExpiresAt: Word, connectionEpoch: string,
    transportBinding: string, audience: string, resource: string, now: Word)

  datatype ManifestKey = ManifestKey(
    issuer: string, keyId: string, publicKey: string, validFrom: Word, validUntil: Word, active: bool)

  datatype ManifestPayload = ManifestPayload(
    contractVersion: string, generation: nat, issuedAt: Word, expiresAt: Word, keys: seq<ManifestKey>)

  datatype SignedManifest = SignedManifest(payload: ManifestPayload, signature: string)

  // Parsing, canonical encoding, digests and signatures, left abstract.
  datatype Primitives = Primitives(
    parseClaims: Bytes -> Option<SignedClaims>, encodeClaims: SignedClaims -> Bytes,
    parseOperation: Bytes -> Option<CanonicalOperation>, encodeOperation: CanonicalOperation -> Bytes,
    parseManifest: Bytes -> Option<SignedManifest>, encodeManifest: SignedManifest -> Bytes,
    actorSigned: (Key, Claims, string) -> bool, ownerSigned: (Key, ManifestPayload, string) -> bool,
    decodeKey: string -> Option<Key>,
    sha256: Bytes -> Digest, hex: Digest -> string, utf8: string -> Bytes, fingerprint: seq<string> -> Digest)
  {
    // Hexadecimal text has no white space and is not empty.
    ghost predicate Valid() { forall d :: !Blank(hex(d)) }
  }

  datatype AttestationError = Invalid | Replayed | StorageUnavailable

  // Gates ---------------------------------------------------------------------------------------------------

  predicate IsControl(c: char) {
    c <= '\U{001F}' || '\U{007F}' <= c <= '\U{009F}'
  }

  predicate SafeClaim(s: string) {
    !Blank(s) && ByteLength(s) <= 256 && forall c | c in s :: !IsControl(c)
  }

  // Not empty, nothing to trim, short and free of control characters.
  predicate AllowedId(s: string) {
    && s != [] && !IsWhitespace(s[0]) && !IsWhitespace(s[|s| - 1])
    && ByteLength(s) <= 256 && forall c | c in s :: !IsControl(c)
  }

  datatype PinnedIssuer = PinnedIssuer(issuer: string, keyId: string, publicKey: Key)

  predicate SignerPolicy(claims: Claims, policy: PinnedIssuer) {
    && claims.contractVersion == "actor-attestation/v1" && claims.alg == "Ed25519"
    && claims.issuer == policy.issuer && claims.keyId == policy.keyId
    && SafeClaim(policy.issuer) && SafeClaim(policy.keyId)
  }

  predicate LocalBinding(claims: Claims, e: ExpectedRequest) {
    && claims.audience == e.audience && claims.resource == e.resource
    && claims.deviceId == e.deviceId && claims.workspaceId == e.workspaceId
    && claims.messageId == e.messageId && claims.correlationId == e.correlationId
    && claims.gatewayChallenge == e.challenge && claims.connectionEpoch == e.connectionEpoch
  }

  predicate ClaimShapes(claims: Claims, e: ExpectedRequest) {
    && SafeClaim(claims.subject) && SafeClaim(claims.clientId) && SafeClaim(claims.nonce)
    && SafeClaim(claims.gatewayChallenge) && SafeClaim(claims.connectionEpoch) && SafeClaim(e.transportBinding)
    && SafeClaim(claims.messageId) && SafeClaim(claims.correlationId)
    && SafeClaim(claims.deviceId) && SafeClaim(claims.workspaceId)
  }

  predicate Fresh(claims: Claims, now: Word) {
    && claims.issuedAt <= SatAdd(now, MAX_SKEW)
    && claims.expiresAt >= now
    && claims.expiresAt > claims.issuedAt
    && SatSub(claims.expiresAt, claims.issuedAt) <= MAX_LIFETIME
  }

  predicate NearChallenge(claims: Claims, e: ExpectedRequest) {
    && claims.issuedAt >= SatSub(e.challengeIssuedAt, MAX_SKEW)
    && claims.expiresAt <= SatAdd(e.challengeExpiresAt, MAX_SKEW)
  }

  predicate CanonicalRequest(x: Primitives, claims: Claims, e: ExpectedRequest) {
    var operation := x.parseOperation(e.operation);
    && operation.Some?
    && x.encodeOperation(operation.value) == e.operation
    && operation.value.operationMethod == "tools/call"
    && SafeClaim(operation.value.tool) && SafeClaim(operation.value.effect) && operation.value.argumentsAreObject
    && operation.value.deviceId == claims.deviceId && operation.value.workspaceId == claims.workspaceId
    && operation.value.messageId == claims.messageId && operation.value.correlationId == claims.correlationId
    && claims.requestSha256 == x.hex(x.sha256(e.operation))
    && claims.channelBindingSha256 == x.hex(x.sha256(x.utf8(e.transportBinding)))
  }

  // Everything an assertion must pass before the store is asked.
  predicate Genuine(x: Primitives, proof: Bytes, policy: PinnedIssuer, e: ExpectedRequest) {
    && |proof| <= MAX_ASSERTION_BYTES && |e.operation| <= MAX_REQUEST_BYTES
    && x.parseClaims(proof).Some?
    && var signed := x.parseClaims(proof).value;
       && x.encodeClaims(signed) == proof
       && SignerPolicy(signed.payload, policy) && LocalBinding(signed.payload, e) && ClaimShapes(signed.payload, e)
       && Fresh(signed.payload, e.now) && NearChallenge(signed.payload, e) && CanonicalRequest(x, signed.payload, e)
       && x.actorSigned(policy.publicKey, signed.payload, signed.signature)
  }

  function Binding(
    x: Primitives, challenge: string, device: string, workspace: string, epoch: string, channel: string,
    issuedAt: Word, expiresAt: Word): (r: Replay.Challenge)
  {
    Replay.Challenge(
      x.fingerprint(["gateway-actor-challenge-v1", challenge]), x.fingerprint(["device", device]),
      x.fingerprint(["workspace", workspace]), x.fingerprint(["epoch", epoch]), x.fingerprint(["channel", channel]),
      issuedAt, expiresAt)
  }

  function Evidence(x: Primitives, claims: Claims): (r: Replay.Proof) {
    Replay.Proof(
      claims.issuer,
      x.fingerprint([claims.issuer, claims.nonce]),
      x.fingerprint([claims.issuer, claims.messageId]),
      x.fingerprint([claims.issuer, claims.deviceId, claims.connectionEpoch, claims.gatewayChallenge]),
      x.fingerprint([claims.issuer, claims.subject, claims.deviceId, claims.connectionEpoch, claims.correlationId]),
      claims.expiresAt)
  }

  function StoreCall(x: Primitives, claims: Claims, e: ExpectedRequest): (r: Replay.Op) {
    Replay.Consume(
      Evidence(x, claims),
      Binding(x, e.challenge, e.deviceId, e.workspaceId, e.connectionEpoch, e.transportBinding,
              e.challengeIssuedAt, e.challengeExpiresAt),
      e.now)
  }

  function Identified(x: Primitives, claims: Claims, e: ExpectedRequest): (r: VerifiedPrincipal) {
    VerifiedPrincipal(
      claims.issuer, claims.subject, None, Some(claims.clientId), "signed_request_bound_ed25519",
      x.hex(x.fingerprint([claims.issuer, claims.subject, claims.clientId, claims.deviceId, e.transportBinding])))
  }

  function FromReplay(error: Replay.Error): (r: AttestationError) {
    if error.Replayed? then Replayed else StorageUnavailable
  }

  method VerifyAndConsumeActorAssertion(
    x: Primitives, proof: Bytes, policy: PinnedIssuer, e: ExpectedRequest, storage: Replay.Storage, backend: Replay.Backend)
    returns (r: Result<VerifiedPrincipal, AttestationError>)
    requires storage.db.Keyed()
    modifies storage
    ensures r == Err(Invalid) <==> !Genuine(x, proof, policy, e)
    ensures !Genuine(x, proof, policy, e) ==> storage.db == old(storage.db)
    ensures Genuine(x, proof, policy, e) ==>
              var claims := x.parseClaims(proof).value.payload;
              && storage.db == Replay.Step(old(storage.db), StoreCall(x, claims, e), backend)
              && (r == Ok(Identified(x, claims, e)) <==> backend.Working? && Replay.Accepts(old(storage.db), StoreCall(x, claims, e)))
              && (r.Ok? ==> r == Ok(Identified(x, claims, e)))
  {
    if |proof| > MAX_ASSERTION_BYTES || |e.operation| > MAX_REQUEST_BYTES { return Err(Invalid); }
    var parsed := x.parseClaims(proof);
    if parsed.None? { return Err(Invalid); }
    if x.encodeClaims(parsed.value) != proof { return Err(Invalid); }
    var claims := parsed.value.payload;
    if !SignerPolicy(claims, policy) || !LocalBinding(claims, e) || !ClaimShapes(claims, e) || !Fresh(claims, e.now) {
      return Err(Invalid);
    }
    if !NearChallenge(claims, e) || !CanonicalRequest(x, claims, e) { return Err(Invalid); }
    if !x.actorSigned(policy.publicKey, claims, parsed.value.signature) { return Err(Invalid); }
    var call := StoreCall(x, claims, e);
    var consumed := storage.ConsumeIssuedActorProof(call.p, call.binding, call.now, backend);
    if consumed.Err? { return Err(FromReplay(consumed.error)); }
    return Ok(Identified(x, claims, e));
  }

  datatype Channel = Channel(deviceId: string, workspaceId: string, connectionEpoch: string, transportBinding: string, now: Word)

  datatype IssuedChallenge = IssuedChallenge(challenge: string, issuedAt: Word, expiresAt: Word)

  function BindingFor(x: Primitives, local: Channel, challenge: string): (r: Replay.Challenge) {
    Binding(x, challenge, local.deviceId, local.workspaceId, local.connectionEpoch, local.transportBinding,
            local.now, SatAdd(local.now, MAX_LIFETIME))
  }

  predicate Addressable(local: Channel) {
    && SafeClaim(local.deviceId) && SafeClaim(local.workspaceId) && SafeClaim(local.connectionEpoch)
    && SafeClaim(local.transportBinding) && 0 < local.now <= MAX_WORD - MAX_LIFETIME
  }

  // The challenge text stands for 256 random bits.
  method IssueGatewayChallenge(x: Primitives, storage: Replay.Storage, local: Channel, challenge: string, backend: Replay.Backend)
    returns (r: Result<IssuedChallenge, AttestationError>)
    modifies storage
    ensures r == Err(Invalid) <==> !Addressable(local)
    ensures r.Ok? <==>
            && Addressable(local) && backend.Working?
            && Replay.Accepts(old(storage.db), Replay.Register(BindingFor(x, local, challenge)))
    ensures r.Ok? ==> r.value == IssuedChallenge(challenge, local.now, local.now + MAX_LIFETIME)
    ensures storage.db == if Addressable(local)
                          then Replay.Step(old(storage.db), Replay.Register(BindingFor(x, local, challenge)), backend)
                          else old(storage.db)
  {
    if !SafeClaim(local.deviceId) || !SafeClaim(local.workspaceId) || !SafeClaim(local.connectionEpoch)
       || !SafeClaim(local.transportBinding) || local.now <= 0
    {
      return Err(Invalid);
    }
    if local.now + MAX_LIFETIME > MAX_WORD { return Err(Invalid); }
    var registered := storage.RegisterActorChallenge(BindingFor(x, local, challenge), backend);
    if registered.Err? { return Err(FromReplay(registered.error)); }
    return Ok(IssuedChallenge(challenge, local.now, local.now + MAX_LIFETIME));
  }

  // Owner-pinned keys -------------------------------------------------------------------------------------------

  datatype PinnedKey = PinnedKey(
    issuer: string, keyId: string, publicKey: Key, validFrom: Word, validUntil: Word, active: bool)
  {
    function Name(): (r: (string, string)) { (issuer, keyId) }

    predicate WellFormed() {
      AllowedId(issuer) && AllowedId(keyId) && validFrom > 0 && validUntil > validFrom
    }
  }

  // A policy: a few well-formed keys, no two with one name and no two with one public key.
  ghost predicate IsPolicy(keys: seq<PinnedKey>) {
    && 0 < |keys| <= MAX_KEYS
    && (forall i | 0 <= i < |keys| :: keys[i].WellFormed())
    && (forall i, j | 0 <= i < j < |keys| :: Apart(keys[i], keys[j]))
  }

  predicate Apart(a: PinnedKey, b: PinnedKey) {
    a.Name() != b.Name() && a.publicKey != b.publicKey
  }

  method NewIssuers(keys: seq<PinnedKey>) returns (r: Result<seq<PinnedKey>, AttestationError>)
    ensures r == if IsPolicy(keys) then Ok(keys) else Err(Invalid)
  {
    if keys == [] || |keys| > MAX_KEYS { return Err(Invalid); }
    var names: set<(string, string)> := {};
    var publicKeys: set<Key> := {};
    for i := 0 to |keys|
      invariant forall k | 0 <= k < i :: keys[k].WellFormed()
      invariant forall n, m | 0 <= n < m < i :: Apart(keys[n], keys[m])
      invariant names == set k | 0 <= k < i :: keys[k].Name()
      invariant publicKeys == set k | 0 <= k < i :: keys[k].publicKey
    {
      var key := keys[i];
      if !key.WellFormed() { return Err(Invalid); }
      if key.Name() in names || key.publicKey in publicKeys {
        assert exists k | 0 <= k < i :: !Apart(keys[k], keys[i]);
        return Err(Invalid);
      }
      names := names + {key.Name()};
      publicKeys := publicKeys + {key.publicKey};
    }
    return Ok(keys);
  }

  predicate KeyCovers(key: PinnedKey, claims: Claims, now: Word) {
    && key.active
    && claims.issuedAt >= key.validFrom && claims.expiresAt <= key.validUntil
    && key.validFrom <= now <= key.validUntil
  }

  predicate Names(key: PinnedKey, claims: Claims) {
    key.issuer == claims.issuer && key.keyId == claims.keyId
  }

  method FindKey(keys: seq<PinnedKey>, claims: Claims) returns (r: Option<PinnedKey>)
    requires IsPolicy(keys)
    ensures r.None? <==> forall i | 0 <= i < |keys| :: !Names(keys[i], claims)
    ensures forall i | 0 <= i < |keys| && Names(keys[i], claims) :: r == Some(keys[i])
    ensures r.Some? ==> r.value in keys && Names(r.value, claims)
  {
    for i := 0 to |keys|
      invariant forall k | 0 <= k < i :: !Names(keys[k], claims)
    {
      if Names(keys[i], claims) { return Some(keys[i]); }
    }
    return None;
  }

  function Pin(key: PinnedKey): (r: PinnedIssuer) { PinnedIssuer(key.issuer, key.keyId, key.publicKey) }

  // Some pinned key signed this assertion, and covers it.
  ghost predicate SignedBy(x: Primitives, keys: seq<PinnedKey>, proof: Bytes, e: ExpectedRequest) {
    && x.parseClaims(proof).Some?
    && exists i | 0 <= i < |keys| ::
         && Names(keys[i], x.parseClaims(proof).value.payload)
         && KeyCovers(keys[i], x.parseClaims(proof).value.payload, e.now)
         && Genuine(x, proof, Pin(keys[i]), e)
  }

  method VerifyWithIssuers(
    x: Primitives, keys: seq<PinnedKey>, proof: Bytes, e: ExpectedRequest, storage: Replay.Storage, backend: Replay.Backend)
    returns (r: Result<VerifiedPrincipal, AttestationError>)
    requires IsPolicy(keys) && storage.db.Keyed()
    modifies storage
    ensures r == Err(Invalid) <==> !SignedBy(x, keys, proof, e)
    ensures !SignedBy(x, keys, proof, e) ==> storage.db == old(storage.db)
    ensures SignedBy(x, keys, proof, e) ==>
              var claims := x.parseClaims(proof).value.payload;
              && storage.db == Replay.Step(old(storage.db), StoreCall(x, claims, e), backend)
              && (r == Ok(Identified(x, claims, e)) <==> backend.Working? && Replay.Accepts(old(storage.db), StoreCall(x, claims, e)))
              && (r.Ok? ==> r == Ok(Identified(x, claims, e)))
  {
    if |proof| > MAX_ASSERTION_BYTES { return Err(Invalid); }
    var parsed := x.parseClaims(proof);
    if parsed.None? { return Err(Invalid); }
    var claims := parsed.value.payload;
    var key := FindKey(keys, claims);
    if key.None? { return Err(Invalid); }
    if !KeyCovers(key.value, claims, e.now) { return Err(Invalid); }
    assert SignedBy(x, keys, proof, e) <==> Genuine(x, proof, Pin(key.value), e);
    r := VerifyAndConsumeActorAssertion(x, proof, Pin(key.value), e, storage, backend);
  }
}
