/** The owner-signed list of issuer keys (crates/identity/src/owner_manifest.rs), and what an identity
    that came through manifest, key, assertion and store is worth. */
module OwnerManifest {
  import opened Prelude
  import opened Words
  import opened Authorization
  import opened Identity
  import Replay

  datatype VerifiedManifest = VerifiedManifest(generation: nat, issuedAt: Word, expiresAt: Word, issuers: seq<PinnedKey>)

  predicate FreshManifest(payload: ManifestPayload, minimumExclusive: nat, now: Word) {
    && now > 0
    && minimumExclusive < MAX_GENERATION
    && payload.contractVersion == "owner-issuer-manifest/v1"
    && 0 < payload.generation <= MAX_GENERATION && payload.generation > minimumExclusive
    && 0 < payload.issuedAt <= now < payload.expiresAt && payload.expiresAt > payload.issuedAt
    && SatSub(payload.expiresAt, payload.issuedAt) <= MAX_MANIFEST_LIFETIME
    && 0 < |payload.keys| <= MAX_KEYS
  }

  // The owner's own key may not sign for actors.
  predicate Independent(x: Primitives, key: ManifestKey, root: Key) {
    x.decodeKey(key.publicKey).Some? && x.decodeKey(key.publicKey).value != root
  }

  function Pinned(x: Primitives, key: ManifestKey): (r: PinnedKey)
    requires x.decodeKey(key.publicKey).Some?
  {
    PinnedKey(key.issuer, key.keyId, x.decodeKey(key.publicKey).value, key.validFrom, key.validUntil, key.active)
  }

  ghost predicate AllIndependent(x: Primitives, keys: seq<ManifestKey>, root: Key) {
    forall i | 0 <= i < |keys| :: Independent(x, keys[i], root)
  }

  ghost function AllPinned(x: Primitives, keys: seq<ManifestKey>, root: Key): (r: seq<PinnedKey>)
    requires AllIndependent(x, keys, root)
  {
    seq(|keys|, i requires 0 <= i < |keys| => assert Independent(x, keys[i], root); Pinned(x, keys[i]))
  }

  method OwnerApprovedIssuerKeys(x: Primitives, payload: ManifestPayload, root: Key)
    returns (r: Result<seq<PinnedKey>, AttestationError>)
    ensures r.Ok? <==> AllIndependent(x, payload.keys, root) && IsPolicy(AllPinned(x, payload.keys, root))
    ensures r.Ok? ==> r.value == AllPinned(x, payload.keys, root)
    ensures r.Err? ==> r.error == Invalid
  {
    var keys: seq<PinnedKey> := [];
    for i := 0 to |payload.keys|
      invariant AllIndependent(x, payload.keys[..i], root)
      invariant keys == AllPinned(x, payload.keys[..i], root)
    {
      assert payload.keys[..i + 1][..i] == payload.keys[..i];
      var decoded := x.decodeKey(payload.keys[i].publicKey);
      if decoded.None? || decoded.value == root {
        assert !Independent(x, payload.keys[i], root);
        return Err(Invalid);
      }
      keys := keys + [Pinned(x, payload.keys[i])];
    }
    assert payload.keys[..|payload.keys|] == payload.keys;
    r := NewIssuers(keys);
  }

  ghost predicate OwnerApproved(x: Primitives, bytes: Bytes, root: Key, minimumExclusive: nat, now: Word) {
    && 0 < |bytes| <= MAX_MANIFEST_BYTES
    && x.parseManifest(bytes).Some?
    && var signed := x.parseManifest(bytes).value;
       && x.encodeManifest(signed) == bytes
       && FreshManifest(signed.payload, minimumExclusive, now)
       && x.ownerSigned(root, signed.payload, signed.signature)
       && AllIndependent(x, signed.payload.keys, root) && IsPolicy(AllPinned(x, signed.payload.keys, root))
  }

  ghost function Approved(x: Primitives, bytes: Bytes, root: Key, minimumExclusive: nat, now: Word): (r: VerifiedManifest)
    requires OwnerApproved(x, bytes, root, minimumExclusive, now)
    ensures minimumExclusive < r.generation <= MAX_GENERATION
    ensures IsPolicy(r.issuers)
    ensures forall i | 0 <= i < |r.issuers| :: r.issuers[i].publicKey != root
  {
    var payload := x.parseManifest(bytes).value.payload;
    VerifiedManifest(payload.generation, payload.issuedAt, payload.expiresAt, AllPinned(x, payload.keys, root))
  }

  method VerifyOwnerSignedIssuerManifest(x: Primitives, bytes: Bytes, root: Key, minimumExclusive: nat, now: Word)
    returns (r: Result<VerifiedManifest, AttestationError>)
    ensures r.Ok? <==> OwnerApproved(x, bytes, root, minimumExclusive, now)
    ensures r.Ok? ==> r.value == Approved(x, bytes, root, minimumExclusive, now)
    ensures r.Err? ==> r.error == Invalid
  {
    if bytes == [] || |bytes| > MAX_MANIFEST_BYTES { return Err(Invalid); }
    var parsed := x.parseManifest(bytes);
    if parsed.None? { return Err(Invalid); }
    if x.encodeManifest(parsed.value) != bytes { return Err(Invalid); }
    var payload := parsed.value.payload;
    if !FreshManifest(payload, minimumExclusive, now) { return Err(Invalid); }
    if !x.ownerSigned(root, payload, parsed.value.signature) { return Err(Invalid); }
    var issuers := OwnerApprovedIssuerKeys(x, payload, root);
    if issuers.Err? { return Err(issuers.error); }
    return Ok(VerifiedManifest(payload.generation, payload.issuedAt, payload.expiresAt, issuers.value));
  }

  predicate Current(m: VerifiedManifest, activeGeneration: nat, now: Word) {
    m.generation == activeGeneration && m.issuedAt <= now < m.expiresAt
  }

  method VerifyAndConsume(
    x: Primitives, m: VerifiedManifest, proof: Bytes, e: ExpectedRequest, storage: Replay.Storage, activeGeneration: nat,
    backend: Replay.Backend)
    returns (r: Result<VerifiedPrincipal, AttestationError>)
    requires IsPolicy(m.issuers) && storage.db.Keyed()
    modifies storage
    ensures r.Ok? <==> backend.Working? && Vouched(x, m, activeGeneration, proof, e, old(storage.db))
    ensures r.Ok? ==> r.value == Identified(x, x.parseClaims(proof).value.payload, e)
    ensures storage.db == if Vouched(x, m, activeGeneration, proof, e, old(storage.db))
                          then Replay.Step(old(storage.db), StoreCall(x, x.parseClaims(proof).value.payload, e), backend)
                          else old(storage.db)
  {
    if m.generation != activeGeneration || e.now < m.issuedAt || e.now >= m.expiresAt { return Err(Invalid); }
    r := VerifyWithIssuers(x, m.issuers, proof, e, storage, backend);
  }

  // Every gate of the chain, in the order-free form.
  ghost predicate Vouched(
    x: Primitives, m: VerifiedManifest, activeGeneration: nat, proof: Bytes, e: ExpectedRequest, db: Replay.Db)
  {
    && Current(m, activeGeneration, e.now)
    && SignedBy(x, m.issuers, proof, e)
    && Replay.Accepts(db, StoreCall(x, x.parseClaims(proof).value.payload, e))
  }

  // The same windows in exact integers ----------------------------------------------------------------------------

  predicate ExactlyFresh(issued: int, expires: int, now: int) {
    now - 60 <= issued <= now + 15 && issued < expires && now <= expires <= issued + 60
  }

  predicate ExactlyNear(issued: int, expires: int, from: int, until: int) {
    from - 15 <= issued && expires <= until + 15
  }

  /** Saturation never decides a window: each 64-bit check agrees with exact arithmetic on all inputs. */
  lemma WindowsAreExact(claims: Claims, e: ExpectedRequest, c: Replay.Challenge, payload: ManifestPayload, minimum: nat, now: Word)
    ensures Fresh(claims, now) <==> ExactlyFresh(claims.issuedAt, claims.expiresAt, now)
    ensures NearChallenge(claims, e) <==>
            ExactlyNear(claims.issuedAt, claims.expiresAt, e.challengeIssuedAt, e.challengeExpiresAt)
    ensures c.WellFormed() <==>
            && c.hash != 0 && c.device != 0 && c.workspace != 0 && c.epoch != 0 && c.channel != 0
            && 0 < c.issuedAt < c.expiresAt <= c.issuedAt + 60
    ensures FreshManifest(payload, minimum, now) <==>
            && payload.contractVersion == "owner-issuer-manifest/v1" && 0 < |payload.keys| <= MAX_KEYS
            && minimum < payload.generation <= MAX_GENERATION
            && 0 < payload.issuedAt <= now < payload.expiresAt <= payload.issuedAt + 2_592_000
  {
  }

  lemma IdentityIsBindable(x: Primitives, claims: Claims, e: ExpectedRequest)
    requires x.Valid() && SafeClaim(claims.issuer) && SafeClaim(claims.subject)
    ensures Identified(x, claims, e).HasRequiredBindingFields()
  {
    var strength := Identified(x, claims, e).authenticationStrength;
    assert strength[0] == 's' && strength[0] in strength;
    assert !Blank(strength);
  }

  lemma GenuineWindows(x: Primitives, proof: Bytes, policy: PinnedIssuer, e: ExpectedRequest, db: Replay.Db)
    requires x.Valid() && Genuine(x, proof, policy, e)
    requires Replay.Accepts(db, StoreCall(x, x.parseClaims(proof).value.payload, e))
    ensures var signed := x.parseClaims(proof).value;
            var claims := signed.payload;
            && ExactlyFresh(claims.issuedAt, claims.expiresAt, e.now)
            && 0 < e.challengeIssuedAt <= e.now <= e.challengeExpiresAt <= e.challengeIssuedAt + 60
            && ExactlyNear(claims.issuedAt, claims.expiresAt, e.challengeIssuedAt, e.challengeExpiresAt)
            && Identified(x, claims, e).HasRequiredBindingFields()
            && x.actorSigned(policy.publicKey, claims, signed.signature)
  {
    var claims := x.parseClaims(proof).value.payload;
    var call := StoreCall(x, claims, e);
    assert Fresh(claims, e.now) && NearChallenge(claims, e) && call.WellFormed();
    IdentityIsBindable(x, claims, e);
  }

  lemma ManifestWindow(x: Primitives, bytes: Bytes, root: Key, minimum: nat, verifiedAt: Word)
    requires OwnerApproved(x, bytes, root, minimum, verifiedAt)
    ensures var m := Approved(x, bytes, root, minimum, verifiedAt); m.expiresAt <= m.issuedAt + 2_592_000
  {
  }

  // Trimmed, not empty, short, and no control character.
  ghost predicate IsIdentifier(s: string) {
    && s != "" && !IsWhitespace(s[0]) && !IsWhitespace(s[|s| - 1]) && ByteLength(s) <= 256
    && forall c | c in s :: !(c as int < 0x20) && !(0x7f <= c as int <= 0x9f)
  }

  /** Exactly the manifests the owner's root vouches for: canonical bytes the root signed, of a newer
      generation, in their window of at most thirty days, listing one to thirty-two keys that are not the
      root, each with its own name, its own key material and a window. */
  lemma OwnerApprovedIff(x: Primitives, bytes: Bytes, root: Key, minimum: nat, now: Word)
    ensures OwnerApproved(x, bytes, root, minimum, now) <==>
            && 0 < |bytes| <= 16_384 && x.parseManifest(bytes).Some?
            && var signed := x.parseManifest(bytes).value;
               var payload := signed.payload;
               && x.encodeManifest(signed) == bytes && x.ownerSigned(root, payload, signed.signature)
               && payload.contractVersion == "owner-issuer-manifest/v1"
               && minimum < payload.generation <= 9_007_199_254_740_991
               && 0 < payload.issuedAt <= now < payload.expiresAt <= payload.issuedAt + 2_592_000
               && 0 < |payload.keys| <= 32
               && (forall i | 0 <= i < |payload.keys| :: KeyListed(x, payload.keys[i], root))
               && (forall i, j | 0 <= i < j < |payload.keys| :: KeysDiffer(x, payload.keys[i], payload.keys[j]))
  {
    if x.parseManifest(bytes).Some? {
      var payload := x.parseManifest(bytes).value.payload;
      forall i | 0 <= i < |payload.keys| && Independent(x, payload.keys[i], root)
        ensures Pinned(x, payload.keys[i]).WellFormed() <==> KeyListed(x, payload.keys[i], root)
      {
        KeyListedMeans(x, payload.keys[i], root);
      }
      if AllIndependent(x, payload.keys, root) {
        var pinned := AllPinned(x, payload.keys, root);
        assert forall i | 0 <= i < |pinned| :: Independent(x, payload.keys[i], root) && pinned[i] == Pinned(x, payload.keys[i]);
        assert forall i, j | 0 <= i < j < |pinned| :: Apart(pinned[i], pinned[j]) <==> KeysDiffer(x, payload.keys[i], payload.keys[j]);
      }
    }
  }

  ghost predicate KeyListed(x: Primitives, key: ManifestKey, root: Key) {
    && x.decodeKey(key.publicKey).Some? && x.decodeKey(key.publicKey).value != root
    && IsIdentifier(key.issuer) && IsIdentifier(key.keyId) && 0 < key.validFrom < key.validUntil
  }

  ghost predicate KeysDiffer(x: Primitives, a: ManifestKey, b: ManifestKey) {
    (a.issuer != b.issuer || a.keyId != b.keyId) && x.decodeKey(a.publicKey) != x.decodeKey(b.publicKey)
  }

  lemma KeyListedMeans(x: Primitives, key: ManifestKey, root: Key)
    requires Independent(x, key, root)
    ensures Pinned(x, key).WellFormed() <==> KeyListed(x, key, root)
  {
    assert AllowedId(key.issuer) <==> IsIdentifier(key.issuer);
    assert AllowedId(key.keyId) <==> IsIdentifier(key.keyId);
  }

  /** What any identity returned through the chain implies, whenever the manifest was verified: one
      owner-approved active key, distinct from the owner's root, signed exactly this request on this
      channel, and every window holds at once in exact arithmetic. */
  lemma IdentityImpliesWindows(
    x: Primitives, bytes: Bytes, root: Key, minimum: nat, verifiedAt: Word, activeGeneration: nat,
    proof: Bytes, e: ExpectedRequest, db: Replay.Db)
    requires x.Valid() && OwnerApproved(x, bytes, root, minimum, verifiedAt)
    requires Vouched(x, Approved(x, bytes, root, minimum, verifiedAt), activeGeneration, proof, e, db)
    ensures var m := Approved(x, bytes, root, minimum, verifiedAt);
            var signed := x.parseClaims(proof).value;
            var claims := signed.payload;
            && ExactlyFresh(claims.issuedAt, claims.expiresAt, e.now)
            && 0 < e.challengeIssuedAt <= e.now <= e.challengeExpiresAt <= e.challengeIssuedAt + 60
            && ExactlyNear(claims.issuedAt, claims.expiresAt, e.challengeIssuedAt, e.challengeExpiresAt)
            && m.issuedAt <= e.now < m.expiresAt <= m.issuedAt + 2_592_000
            && m.generation == activeGeneration
            && Identified(x, claims, e).HasRequiredBindingFields()
            && exists key | key in m.issuers ::
                 && key.active && key.publicKey != root && x.actorSigned(key.publicKey, claims, signed.signature)
                 && key.validFrom <= e.now <= key.validUntil
                 && key.validFrom <= claims.issuedAt && claims.expiresAt <= key.validUntil
  {
    var m := Approved(x, bytes, root, minimum, verifiedAt);
    var claims := x.parseClaims(proof).value.payload;
    var i :| 0 <= i < |m.issuers| && KeyCovers(m.issuers[i], claims, e.now) && Genuine(x, proof, Pin(m.issuers[i]), e);
    assert m.issuers[i] in m.issuers;
    GenuineWindows(x, proof, Pin(m.issuers[i]), e, db);
    ManifestWindow(x, bytes, root, minimum, verifiedAt);
  }

  // Something to read, short, and no control character.
  ghost predicate Plain(s: string) {
    && (exists c | c in s :: !IsWhitespace(c)) && ByteLength(s) <= 256
    && forall c | c in s :: !(c as int < 0x20) && !(0x7f <= c as int <= 0x9f)
  }

  // The request is one canonical tool call that names the expected ids.
  ghost predicate IsToolCall(x: Primitives, e: ExpectedRequest) {
    var operation := x.parseOperation(e.operation);
    && operation.Some? && x.encodeOperation(operation.value) == e.operation && |e.operation| <= 1_048_576
    && operation.value.operationMethod == "tools/call" && operation.value.argumentsAreObject
    && Plain(operation.value.tool) && Plain(operation.value.effect)
    && operation.value.deviceId == e.deviceId && operation.value.workspaceId == e.workspaceId
    && operation.value.messageId == e.messageId && operation.value.correlationId == e.correlationId
  }

  // The claims are about exactly these request bytes, on exactly this channel, for this audience, device,
  // workspace, message, correlation, challenge and connection.
  ghost predicate IsAbout(x: Primitives, claims: Claims, e: ExpectedRequest) {
    && claims.requestSha256 == x.hex(x.sha256(e.operation))
    && claims.channelBindingSha256 == x.hex(x.sha256(x.utf8(e.transportBinding)))
    && claims.audience == e.audience && claims.resource == e.resource
    && claims.deviceId == e.deviceId && claims.workspaceId == e.workspaceId
    && claims.messageId == e.messageId && claims.correlationId == e.correlationId
    && claims.gatewayChallenge == e.challenge && claims.connectionEpoch == e.connectionEpoch
    && claims.contractVersion == "actor-attestation/v1" && claims.alg == "Ed25519"
  }

  ghost predicate AllPlain(claims: Claims, e: ExpectedRequest) {
    && Plain(claims.issuer) && Plain(claims.keyId) && Plain(claims.subject) && Plain(claims.clientId)
    && Plain(claims.nonce) && Plain(claims.deviceId) && Plain(claims.workspaceId) && Plain(claims.messageId)
    && Plain(claims.correlationId) && Plain(claims.gatewayChallenge) && Plain(claims.connectionEpoch)
    && Plain(e.transportBinding)
  }

  // A canonical assertion, signed under key, about this request, with every window holding in exact integers.
  ghost predicate Attests(x: Primitives, key: Key, proof: Bytes, e: ExpectedRequest) {
    && |proof| <= 8192 && x.parseClaims(proof).Some? && x.encodeClaims(x.parseClaims(proof).value) == proof
    && IsToolCall(x, e)
    && var signed := x.parseClaims(proof).value;
       && x.actorSigned(key, signed.payload, signed.signature)
       && IsAbout(x, signed.payload, e) && AllPlain(signed.payload, e)
       && ExactlyFresh(signed.payload.issuedAt, signed.payload.expiresAt, e.now)
       && ExactlyNear(signed.payload.issuedAt, signed.payload.expiresAt, e.challengeIssuedAt, e.challengeExpiresAt)
  }

  lemma SafeIsPlain(s: string)
    ensures SafeClaim(s) <==> Plain(s)
  {
  }

  lemma ShapesMean(claims: Claims, e: ExpectedRequest)
    ensures ClaimShapes(claims, e) && SafeClaim(claims.issuer) && SafeClaim(claims.keyId) <==> AllPlain(claims, e)
  {
    SafeIsPlain(claims.issuer);
    SafeIsPlain(claims.keyId);
    SafeIsPlain(claims.subject);
    SafeIsPlain(claims.clientId);
    SafeIsPlain(claims.nonce);
    SafeIsPlain(claims.deviceId);
    SafeIsPlain(claims.workspaceId);
    SafeIsPlain(claims.messageId);
    SafeIsPlain(claims.correlationId);
    SafeIsPlain(claims.gatewayChallenge);
    SafeIsPlain(claims.connectionEpoch);
    SafeIsPlain(e.transportBinding);
  }

  lemma RequestMeans(x: Primitives, claims: Claims, e: ExpectedRequest)
    requires LocalBinding(claims, e)
    ensures CanonicalRequest(x, claims, e) && |e.operation| <= MAX_REQUEST_BYTES <==>
            && IsToolCall(x, e) && claims.requestSha256 == x.hex(x.sha256(e.operation))
            && claims.channelBindingSha256 == x.hex(x.sha256(x.utf8(e.transportBinding)))
  {
    var operation := x.parseOperation(e.operation);
    if operation.Some? {
      SafeIsPlain(operation.value.tool);
      SafeIsPlain(operation.value.effect);
    }
  }

  // The gates pass an assertion exactly when it is what it should be.
  lemma GenuineIff(x: Primitives, proof: Bytes, policy: PinnedIssuer, e: ExpectedRequest)
    requires x.parseClaims(proof).Some?
    requires var claims := x.parseClaims(proof).value.payload; claims.issuer == policy.issuer && claims.keyId == policy.keyId
    ensures Genuine(x, proof, policy, e) <==> Attests(x, policy.publicKey, proof, e)
  {
    var claims := x.parseClaims(proof).value.payload;
    ShapesMean(claims, e);
    if LocalBinding(claims, e) { RequestMeans(x, claims, e); }
  }

  // Some pinned, active key names this issuer, covers the assertion and now, and attests to the request.
  ghost predicate Endorses(x: Primitives, key: PinnedKey, proof: Bytes, e: ExpectedRequest) {
    && Attests(x, key.publicKey, proof, e)
    && var claims := x.parseClaims(proof).value.payload;
       && key.issuer == claims.issuer && key.keyId == claims.keyId && key.active
       && key.validFrom <= claims.issuedAt && claims.expiresAt <= key.validUntil
       && key.validFrom <= e.now <= key.validUntil
  }

  /** An identity comes out of the chain exactly when the manifest is the active one and not yet or no longer
      outside its window, some pinned key attests to exactly this request on exactly this channel, and the
      store accepts: nothing less passes, and nothing more is asked. */
  lemma VouchedIff(x: Primitives, m: VerifiedManifest, activeGeneration: nat, proof: Bytes, e: ExpectedRequest, db: Replay.Db)
    ensures Vouched(x, m, activeGeneration, proof, e, db) <==>
            && m.generation == activeGeneration && m.issuedAt <= e.now < m.expiresAt
            && (exists key | key in m.issuers :: Endorses(x, key, proof, e))
            && Replay.Accepts(db, StoreCall(x, x.parseClaims(proof).value.payload, e))
  {
    if x.parseClaims(proof).Some? {
      var claims := x.parseClaims(proof).value.payload;
      forall key | key in m.issuers && Names(key, claims)
        ensures Genuine(x, proof, Pin(key), e) <==> Attests(x, key.publicKey, proof, e)
      {
        GenuineIff(x, proof, Pin(key), e);
      }
      if key :| key in m.issuers && Endorses(x, key, proof, e) {
        var i :| 0 <= i < |m.issuers| && m.issuers[i] == key;
        assert Genuine(x, proof, Pin(m.issuers[i]), e);
      }
      if SignedBy(x, m.issuers, proof, e) {
        var i :| 0 <= i < |m.issuers| && Names(m.issuers[i], claims) && KeyCovers(m.issuers[i], claims, e.now)
          && Genuine(x, proof, Pin(m.issuers[i]), e);
        assert m.issuers[i] in m.issuers && Endorses(x, m.issuers[i], proof, e);
      }
    }
  }

  // Digests and their hexadecimal form tell their inputs apart.
  ghost predicate TellsApart(x: Primitives) {
    && (forall a, b | x.sha256(a) == x.sha256(b) :: a == b)
    && (forall a, b | x.hex(a) == x.hex(b) :: a == b)
    && (forall a, b | x.utf8(a) == x.utf8(b) :: a == b)
  }

  /** One signed assertion vouches for one request on one channel: presented with any other bytes, or on any
      other channel, it yields no identity. */
  lemma OneAssertionOneRequest(
    x: Primitives, m: VerifiedManifest, n: VerifiedManifest, g: nat, h: nat, proof: Bytes,
    a: ExpectedRequest, b: ExpectedRequest, da: Replay.Db, db: Replay.Db)
    requires TellsApart(x) && Vouched(x, m, g, proof, a, da) && Vouched(x, n, h, proof, b, db)
    ensures a.operation == b.operation && a.transportBinding == b.transportBinding
  {
    VouchedIff(x, m, g, proof, a, da);
    VouchedIff(x, n, h, proof, b, db);
    assert x.hex(x.sha256(a.operation)) == x.hex(x.sha256(b.operation));
    assert x.hex(x.sha256(x.utf8(a.transportBinding))) == x.hex(x.sha256(x.utf8(b.transportBinding)));
  }

  /** A challenge that was just issued is good for an identity on its own channel for exactly its minute,
      as far as the store is concerned, and once claimed is good for nothing. */
  lemma ChallengeRoundTrip(x: Primitives, db: Replay.Db, local: Channel, challenge: string, p: Replay.Proof, now: Word)
    requires Addressable(local) && Replay.Accepts(db, Replay.Register(BindingFor(x, local, challenge)))
    requires p.WellFormed() && !db.Repeats(p) && |db.proofs| < Replay.CAPACITY
    ensures var c := BindingFor(x, local, challenge);
            var issued := Replay.Step(db, Replay.Register(c), Replay.Working);
            && (Replay.Accepts(issued, Replay.Consume(p, c, now)) <==>
                local.now <= now <= local.now + 60 && now <= p.expiresAt)
            && (Replay.Accepts(issued, Replay.Consume(p, c, now)) ==>
                  forall q: Replay.Proof, again: Word ::
                    !Replay.Accepts(Replay.Step(issued, Replay.Consume(p, c, now), Replay.Working), Replay.Consume(q, c, again)))
  {
    var issued := Replay.Step(db, Replay.Register(BindingFor(x, local, challenge)), Replay.Working);
    assert issued.Repeats(p) == db.Repeats(p);
  }

  /** Every identity spends a challenge that was issued for exactly its channel: with fingerprints that tell
      texts apart, the challenge it claims was registered for the same text, device, workspace, connection
      and transport, at the instants the gateway expects. */
  lemma IdentityUsesIssuedChallenge(
    x: Primitives, db: Replay.Db, calls: Replay.Calls, claims: Claims, e: ExpectedRequest)
    requires Replay.Sound(db) && db.challenges == map[]
    requires Replay.Accepts(Replay.Run(db, calls), StoreCall(x, claims, e))
    ensures exists j | 0 <= j < |calls| ::
              && Replay.Lands(db, calls, j)
              && calls[j].0 == Replay.Register(Binding(x, e.challenge, e.deviceId, e.workspaceId, e.connectionEpoch,
                                                       e.transportBinding, e.challengeIssuedAt, e.challengeExpiresAt))
  {
    Replay.ClaimedWasRegistered(db, calls, StoreCall(x, claims, e).binding.hash);
  }

  lemma SameBindingSameChannel(x: Primitives, local: Channel, challenge: string, e: ExpectedRequest)
    requires forall a, b | x.fingerprint(a) == x.fingerprint(b) :: a == b
    requires Addressable(local)
    requires BindingFor(x, local, challenge) ==
             Binding(x, e.challenge, e.deviceId, e.workspaceId, e.connectionEpoch, e.transportBinding,
                     e.challengeIssuedAt, e.challengeExpiresAt)
    ensures challenge == e.challenge && local.deviceId == e.deviceId && local.workspaceId == e.workspaceId
    ensures local.connectionEpoch == e.connectionEpoch && local.transportBinding == e.transportBinding
    ensures e.challengeIssuedAt == local.now && e.challengeExpiresAt == local.now + 60
  {
    assert ["gateway-actor-challenge-v1", challenge][1] == ["gateway-actor-challenge-v1", e.challenge][1];
    assert ["device", local.deviceId][1] == ["device", e.deviceId][1];
    assert ["workspace", local.workspaceId][1] == ["workspace", e.workspaceId][1];
    assert ["epoch", local.connectionEpoch][1] == ["epoch", e.connectionEpoch][1];
    assert ["channel", local.transportBinding][1] == ["channel", e.transportBinding][1];
  }

  // Two assertions sharing any replay identifier.
  predicate SharesIdentifier(a: Claims, b: Claims) {
    && a.issuer == b.issuer
    && (|| a.nonce == b.nonce || a.messageId == b.messageId
        || (a.deviceId == b.deviceId && a.connectionEpoch == b.connectionEpoch
            && (a.gatewayChallenge == b.gatewayChallenge
                || (a.subject == b.subject && a.correlationId == b.correlationId))))
  }

  /** Over any run of the store, no two identities rest on assertions that share a replay identifier, on one
      gateway challenge, or on the same assertion. */
  lemma NoIdentityTwice(
    x: Primitives, db: Replay.Db, calls: Replay.Calls, i: nat, j: nat, a: Claims, ea: ExpectedRequest, b: Claims, eb: ExpectedRequest)
    requires Replay.Sound(db) && i < j < |calls|
    requires calls[i].0 == StoreCall(x, a, ea) && calls[j].0 == StoreCall(x, b, eb)
    requires Replay.Lands(db, calls, i) && Replay.Lands(db, calls, j)
    ensures !SharesIdentifier(a, b) && ea.challenge != eb.challenge && a != b && ea.now <= eb.now
  {
    Replay.NothingIsAcceptedTwice(db, calls, i, j);
  }
}
