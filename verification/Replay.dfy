/** The anti-replay store of crates/storage/src/actor_replay.rs: issued challenges, consumed proofs and a
    local clock mark, all changed in one transaction. The clock mark is seeded by
    crates/storage/src/migrations.rs when a store of the previous schema is upgraded. */
module Replay {
  import opened Prelude
  import opened Words

  const CAPACITY := 250_000

  // A 32-byte digest read as a number, so the all-zero digest is 0.
  type Digest = nat

  datatype Proof = Proof(
    issuer: string, nonce: Digest, message: Digest, challenge: Digest, correlation: Digest, expiresAt: Word)
  {
    predicate WellFormed() {
      && !Blank(issuer) && ByteLength(issuer) <= 256
      && nonce != 0 && message != 0 && challenge != 0 && correlation != 0
    }

    // One of the four uniqueness constraints of the table.
    predicate Clashes(other: Proof) {
      && issuer == other.issuer
      && (nonce == other.nonce || message == other.message || challenge == other.challenge
          || correlation == other.correlation)
    }
  }

  datatype Challenge = Challenge(
    hash: Digest, device: Digest, workspace: Digest, epoch: Digest, channel: Digest, issuedAt: Word, expiresAt: Word)
  {
    predicate WellFormed() {
      && hash != 0 && device != 0 && workspace != 0 && epoch != 0 && channel != 0
      && issuedAt > 0 && expiresAt > issuedAt && SatSub(expiresAt, issuedAt) <= 60
    }
  }

  datatype Row = Row(challenge: Challenge, consumed: bool)

  // The clock mark is a single row, which a damaged database may lack.
  datatype Db = Db(clock: Option<Word>, challenges: map<Digest, Row>, proofs: seq<Proof>)
  {
    ghost predicate Keyed() {
      forall hash | hash in challenges :: challenges[hash].challenge.hash == hash
    }

    predicate Repeats(p: Proof) {
      exists i | 0 <= i < |proofs| :: proofs[i].Clashes(p)
    }

    predicate Claimable(c: Challenge) {
      c.hash in challenges && challenges[c.hash] == Row(c, false)
    }

    predicate Reached(now: Word) {
      now > 0 && clock.Some? && clock.value <= now
    }
  }

  datatype Error = Replayed | Unavailable | Invalid

  datatype Op =
    | Register(c: Challenge)
    | Consume(p: Proof, binding: Challenge, now: Word)
    | Reserve(p: Proof, now: Word)
  {
    function At(): (r: Word) { if Register? then c.issuedAt else now }

    predicate WellFormed() {
      match this
      case Register(c) => c.WellFormed()
      case Consume(p, binding, now) =>
        p.WellFormed() && binding.WellFormed() && binding.issuedAt <= now <= binding.expiresAt && now <= p.expiresAt
      case Reserve(p, now) => p.WellFormed() && 0 < now <= p.expiresAt
    }
  }

  // What each call promises -------------------------------------------------------------------------------

  predicate HasRoom(db: Db, op: Op) {
    if op.Register? then |db.challenges| < CAPACITY else |db.proofs| < CAPACITY
  }

  predicate Unused(db: Db, op: Op) {
    match op
    case Register(c) => c.hash !in db.challenges
    case Consume(p, binding, _) => db.Claimable(binding) && !db.Repeats(p)
    case Reserve(p, _) => !db.Repeats(p)
  }

  predicate Accepts(db: Db, op: Op) {
    op.WellFormed() && db.Reached(op.At()) && HasRoom(db, op) && Unused(db, op)
  }

  function Accepted(db: Db, op: Op): (r: Db) {
    var ticked := db.(clock := Some(op.At()));
    match op
    case Register(c) => ticked.(challenges := db.challenges[c.hash := Row(c, false)])
    case Consume(p, binding, _) =>
      ticked.(challenges := db.challenges[binding.hash := Row(binding, true)], proofs := db.proofs + [p])
    case Reserve(p, _) => ticked.(proofs := db.proofs + [p])
  }

  // How the database behaves during one call: it works, it fails before anything is committed, or its
  // commit takes effect and still reports an error.
  datatype Backend = Working | Broken | Unconfirmed

  // A refused call changes nothing.
  function Step(db: Db, op: Op, backend: Backend): (r: Db) {
    if !backend.Broken? && Accepts(db, op) then Accepted(db, op) else db
  }

  ghost predicate Answers(r: Result<(), Error>, db: Db, op: Op, backend: Backend) {
    && (r.Ok? <==> backend.Working? && Accepts(db, op))
    && (r == Err(Replayed) <==>
        !backend.Broken? && op.WellFormed() && db.Reached(op.At()) && HasRoom(db, op) && !Unused(db, op))
    && (r == Err(Invalid) <==> !op.WellFormed() || (!backend.Broken? && !db.Reached(op.At())))
  }

  /** The connection. Every call works on a copy, the open transaction, and publishes it only at the end. */
  class Storage {
    var db: Db

    constructor (initial: Db)
      ensures db == initial
    {
      db := initial;
    }

    // The clock update and the capacity gate that open every transaction.
    static method BeginLimitedWrite(db: Db, op: Op) returns (r: Result<Db, Error>)
      ensures r == if !db.Reached(op.At()) then Err(Invalid)
                   else if !HasRoom(db, op) then Err(Unavailable)
                   else Ok(db.(clock := Some(op.At())))
    {
      var now := op.At();
      if now <= 0 { return Err(Invalid); }
      var tx := db;
      var updated := 0;
      if tx.clock.Some? && tx.clock.value <= now {
        tx := tx.(clock := Some(now));
        updated := 1;
      }
      if updated != 1 { return Err(Invalid); }
      var count := if op.Register? then |tx.challenges| else |tx.proofs|;
      if count >= CAPACITY { return Err(Unavailable); }
      return Ok(tx);
    }

    static method InsertProof(tx: Db, p: Proof) returns (r: Result<Db, Error>)
      ensures r == if tx.Repeats(p) then Err(Replayed) else Ok(tx.(proofs := tx.proofs + [p]))
    {
      for i := 0 to |tx.proofs|
        invariant forall k | 0 <= k < i :: !tx.proofs[k].Clashes(p)
      {
        if tx.proofs[i].Clashes(p) { return Err(Replayed); }
      }
      return Ok(tx.(proofs := tx.proofs + [p]));
    }

    // The upgrade hook; a mark below zero violates the table's own check and aborts the upgrade.
    method SeedActorClockHighWater() returns (seed: Word, upgraded: bool)
      modifies this
      ensures IsSeed(old(db), seed) && (upgraded <==> seed >= 0)
      ensures db == if upgraded then old(db).(clock := Some(seed)) else old(db)
    {
      seed := ConservativeSeed(db);
      upgraded := seed >= 0;
      if upgraded { db := db.(clock := Some(seed)); }
    }

    method RegisterActorChallenge(c: Challenge, backend: Backend) returns (r: Result<(), Error>)
      modifies this
      ensures db == Step(old(db), Register(c), backend)
      ensures Answers(r, old(db), Register(c), backend)
    {
      if !c.WellFormed() { return Err(Invalid); }
      if backend.Broken? { return Err(Unavailable); }
      var begun := BeginLimitedWrite(db, Register(c));
      if begun.Err? { return Err(begun.error); }
      var tx := begun.value;
      if c.hash in tx.challenges { return Err(Replayed); }
      tx := tx.(challenges := tx.challenges[c.hash := Row(c, false)]);
      db := tx;
      if backend.Unconfirmed? { return Err(Unavailable); }
      return Ok(());
    }

    method ConsumeIssuedActorProof(p: Proof, binding: Challenge, now: Word, backend: Backend) returns (r: Result<(), Error>)
      requires db.Keyed()
      modifies this
      ensures db == Step(old(db), Consume(p, binding, now), backend)
      ensures Answers(r, old(db), Consume(p, binding, now), backend)
    {
      if !binding.WellFormed() || now < binding.issuedAt || now > binding.expiresAt || p.expiresAt < now || !p.WellFormed() {
        return Err(Invalid);
      }
      if backend.Broken? { return Err(Unavailable); }
      var begun := BeginLimitedWrite(db, Consume(p, binding, now));
      if begun.Err? { return Err(begun.error); }
      var tx := begun.value;
      var changed := 0;
      if binding.hash in tx.challenges && tx.challenges[binding.hash].challenge == binding && !tx.challenges[binding.hash].consumed {
        tx := tx.(challenges := tx.challenges[binding.hash := tx.challenges[binding.hash].(consumed := true)]);
        changed := 1;
      }
      if changed != 1 { return Err(Replayed); }
      var inserted := InsertProof(tx, p);
      if inserted.Err? { return Err(inserted.error); }
      db := inserted.value;
      if backend.Unconfirmed? { return Err(Unavailable); }
      return Ok(());
    }

    method ConsumeActorProof(p: Proof, now: Word, backend: Backend) returns (r: Result<(), Error>)
      modifies this
      ensures db == Step(old(db), Reserve(p, now), backend)
      ensures Answers(r, old(db), Reserve(p, now), backend)
    {
      if !p.WellFormed() || now <= 0 || p.expiresAt < now { return Err(Invalid); }
      if backend.Broken? { return Err(Unavailable); }
      var begun := BeginLimitedWrite(db, Reserve(p, now));
      if begun.Err? { return Err(begun.error); }
      var inserted := InsertProof(begun.value, p);
      if inserted.Err? { return Err(inserted.error); }
      db := inserted.value;
      if backend.Unconfirmed? { return Err(Unavailable); }
      return Ok(());
    }
  }

  // Runs ---------------------------------------------------------------------------------------------------

  // Calls with the database behaving at will.
  type Calls = seq<(Op, Backend)>

  function Run(db: Db, calls: Calls): (r: Db)
    decreases |calls|
  {
    if calls == [] then db
    else Step(Run(db, calls[..|calls| - 1]), calls[|calls| - 1].0, calls[|calls| - 1].1)
  }

  // The call takes effect, whatever its caller is told.
  predicate Lands(db: Db, calls: Calls, i: nat)
    requires i < |calls|
  {
    !calls[i].1.Broken? && Accepts(Run(db, calls[..i]), calls[i].0)
  }

  // How many calls of a kind took effect.
  function Count(db: Db, calls: Calls, kind: ((Op, Backend)) -> bool): (r: nat)
    decreases |calls|
  {
    if calls == [] then 0
    else
      var n := |calls| - 1;
      Count(db, calls[..n], kind) + (if Lands(db, calls, n) && kind(calls[n]) then 1 else 0)
  }

  ghost function Consumed(db: Db): (r: set<Digest>) {
    set hash | hash in db.challenges && db.challenges[hash].consumed
  }

  // What the table constraints and gates maintain.
  ghost predicate Sound(db: Db) {
    && db.Keyed()
    && |db.challenges| <= CAPACITY && |db.proofs| <= CAPACITY
    && (forall i, j | 0 <= i < j < |db.proofs| :: !db.proofs[i].Clashes(db.proofs[j]))
  }

  // A digest was given.
  predicate Given(d: Digest) { d != 0 }

  ghost predicate IsProof(p: Proof) {
    && (exists c | c in p.issuer :: !IsWhitespace(c)) && ByteLength(p.issuer) <= 256
    && Given(p.nonce) && Given(p.message) && Given(p.challenge) && Given(p.correlation)
  }

  ghost predicate IsChallenge(c: Challenge) {
    && Given(c.hash) && Given(c.device) && Given(c.workspace) && Given(c.epoch) && Given(c.channel)
    && 0 < c.issuedAt < c.expiresAt <= c.issuedAt + 60
  }

  // No stored proof of this issuer shares one of the four identifiers.
  ghost predicate IsNew(db: Db, p: Proof) {
    forall i | 0 <= i < |db.proofs| && db.proofs[i].issuer == p.issuer ::
      && db.proofs[i].nonce != p.nonce && db.proofs[i].message != p.message
      && db.proofs[i].challenge != p.challenge && db.proofs[i].correlation != p.correlation
  }

  ghost predicate ClockAllows(db: Db, now: Word) { db.clock.Some? && db.clock.value <= now && 0 < now }

  /** Exactly what the store accepts: a challenge of at most a minute, not seen before; a fresh proof on an
      issued, unclaimed challenge, both in their windows; a fresh proof in its window. Always with the clock
      not behind its mark and the table not full. */
  lemma AcceptsIff(db: Db, c: Challenge, p: Proof, now: Word)
    ensures Accepts(db, Register(c)) <==>
            IsChallenge(c) && c.hash !in db.challenges && ClockAllows(db, c.issuedAt) && |db.challenges| < 250_000
    ensures Accepts(db, Consume(p, c, now)) <==>
            && IsProof(p) && IsChallenge(c) && IsNew(db, p) && ClockAllows(db, now) && |db.proofs| < 250_000
            && c.hash in db.challenges && db.challenges[c.hash].challenge == c && !db.challenges[c.hash].consumed
            && c.issuedAt <= now <= c.expiresAt && now <= p.expiresAt
    ensures Accepts(db, Reserve(p, now)) <==>
            IsProof(p) && IsNew(db, p) && ClockAllows(db, now) && |db.proofs| < 250_000 && now <= p.expiresAt
  {
    assert p.WellFormed() <==> IsProof(p);
    assert c.WellFormed() <==> IsChallenge(c);
    assert !db.Repeats(p) <==> IsNew(db, p);
  }

  // One database after another: the clock has not gone back, and no row was dropped or unconsumed.
  ghost predicate Later(a: Db, b: Db) {
    && (a.clock.Some? <==> b.clock.Some?)
    && (a.clock.Some? ==> a.clock.value <= b.clock.value)
    && a.proofs <= b.proofs
    && (forall hash | hash in a.challenges ::
          && hash in b.challenges && b.challenges[hash].challenge == a.challenges[hash].challenge
          && (a.challenges[hash].consumed ==> b.challenges[hash].consumed))
  }

  lemma StepSound(db: Db, op: Op, backend: Backend)
    requires Sound(db)
    ensures Sound(Step(db, op, backend)) && Later(db, Step(db, op, backend))
  {
  }

  lemma {:induction false} RunSound(db: Db, calls: Calls)
    requires Sound(db)
    ensures Sound(Run(db, calls)) && Later(db, Run(db, calls))
    decreases |calls|
  {
    if calls != [] {
      var n := |calls| - 1;
      RunSound(db, calls[..n]);
      StepSound(Run(db, calls[..n]), calls[n].0, calls[n].1);
    }
  }

  lemma {:induction false} RunSplits(db: Db, calls: Calls, i: nat)
    requires i <= |calls|
    ensures Run(db, calls) == Run(Run(db, calls[..i]), calls[i..])
    decreases |calls|
  {
    if i == |calls| {
      assert calls[..i] == calls && calls[i..] == [];
    } else {
      var n := |calls| - 1;
      RunSplits(db, calls[..n], i);
      assert calls[..n][..i] == calls[..i] && calls[..n][i..] == calls[i..][..n - i];
    }
  }

  lemma RunFrom(db: Db, calls: Calls, i: nat, j: nat)
    requires Sound(db) && i < j <= |calls|
    ensures Sound(Run(db, calls[..i])) && Sound(Run(db, calls[..j]))
    ensures Later(Step(Run(db, calls[..i]), calls[i].0, calls[i].1), Run(db, calls[..j]))
  {
    var upto := calls[..j];
    RunSound(db, calls[..i]);
    RunSound(db, upto);
    StepSound(Run(db, calls[..i]), calls[i].0, calls[i].1);
    RunSplits(db, upto, i + 1);
    assert upto[..i + 1][..i] == calls[..i];
    RunSound(Run(db, upto[..i + 1]), upto[i + 1..]);
  }

  /** Over every run, with the database behaving at will, calls that take effect, confirmed or not, do so at
      non-decreasing times, no two of them share a replay identifier of one issuer, and no issued challenge
      is claimed by two of them. */
  lemma NothingIsAcceptedTwice(db: Db, calls: Calls, i: nat, j: nat)
    requires Sound(db) && i < j < |calls|
    requires Lands(db, calls, i) && Lands(db, calls, j)
    ensures calls[i].0.At() <= calls[j].0.At()
    ensures !calls[i].0.Register? && !calls[j].0.Register? ==> !calls[i].0.p.Clashes(calls[j].0.p)
    ensures calls[i].0.Consume? && calls[j].0.Consume? ==> calls[i].0.binding.hash != calls[j].0.binding.hash
    ensures calls[i].0.Register? && calls[j].0.Register? ==> calls[i].0.c.hash != calls[j].0.c.hash
  {
    RunFrom(db, calls, i, j);
    var after, then_ := Step(Run(db, calls[..i]), calls[i].0, calls[i].1), Run(db, calls[..j]);
    if !calls[i].0.Register? && !calls[j].0.Register? {
      assert after.proofs[|after.proofs| - 1] == calls[i].0.p;
      assert then_.proofs[|after.proofs| - 1] == calls[i].0.p;
    }
  }

  /** A challenge is only ever claimed after it was registered, with the very same binding: in the run or in
      the database it started from. */
  lemma {:induction false} ClaimedWasRegistered(db: Db, calls: Calls, hash: Digest)
    requires Sound(db) && hash in Run(db, calls).challenges
    ensures (hash in db.challenges && Run(db, calls).challenges[hash].challenge == db.challenges[hash].challenge)
            || exists j | 0 <= j < |calls| :: Lands(db, calls, j) && calls[j].0 == Register(Run(db, calls).challenges[hash].challenge)
    decreases |calls|
  {
    if calls != [] {
      var n := |calls| - 1;
      var init := calls[..n];
      RunSound(db, init);
      StepSound(Run(db, init), calls[n].0, calls[n].1);
      if hash in Run(db, init).challenges {
        ClaimedWasRegistered(db, init, hash);
        if j :| 0 <= j < n && Lands(db, init, j) && init[j].0 == Register(Run(db, init).challenges[hash].challenge) {
          assert init[..j] == calls[..j];
          assert Lands(db, calls, j);
        }
      } else {
        assert Lands(db, calls, n);
      }
    }
  }

  lemma ClaimCounts(db: Db, c: Challenge)
    requires db.Claimable(c)
    ensures |Consumed(db.(challenges := db.challenges[c.hash := Row(c, true)]))| == |Consumed(db)| + 1
  {
    var after := db.(challenges := db.challenges[c.hash := Row(c, true)]);
    assert c.hash !in Consumed(db);
    assert Consumed(after) == Consumed(db) + {c.hash};
  }

  lemma RegisterCounts(db: Db, c: Challenge)
    requires c.hash !in db.challenges
    ensures Consumed(db.(challenges := db.challenges[c.hash := Row(c, false)])) == Consumed(db)
  {
    var after := db.(challenges := db.challenges[c.hash := Row(c, false)]);
    assert forall hash :: hash in Consumed(after) <==> hash in Consumed(db);
  }

  lemma SameConsumed(a: Db, b: Db)
    requires a.challenges == b.challenges
    ensures Consumed(a) == Consumed(b)
  {
  }

  lemma ConsumeCounts(db: Db, op: Op)
    requires Accepts(db, op)
    ensures |Consumed(Accepted(db, op))| == |Consumed(db)| + (if op.Consume? then 1 else 0)
  {
    var after := Accepted(db, op);
    match op
    case Register(c) =>
      RegisterCounts(db, c);
      SameConsumed(after, db.(challenges := db.challenges[c.hash := Row(c, false)]));
    case Consume(_, binding, _) =>
      ClaimCounts(db, binding);
      SameConsumed(after, db.(challenges := db.challenges[binding.hash := Row(binding, true)]));
    case Reserve(_, _) => SameConsumed(after, db);
  }

  /** Conservation: the proof table grows by exactly the claims and the legacy reservations, and the claimed
      challenges by exactly the claims, so their difference counts the legacy reservations alone. */
  lemma {:induction false} ProofsAreAccountedFor(db: Db, calls: Calls)
    requires Sound(db)
    ensures |Run(db, calls).proofs| ==
            |db.proofs| + Count(db, calls, (c: (Op, Backend)) => c.0.Consume?) + Count(db, calls, (c: (Op, Backend)) => c.0.Reserve?)
    ensures |Consumed(Run(db, calls))| == |Consumed(db)| + Count(db, calls, (c: (Op, Backend)) => c.0.Consume?)
    decreases |calls|
  {
    if calls != [] {
      var n := |calls| - 1;
      ProofsAreAccountedFor(db, calls[..n]);
      RunSound(db, calls[..n]);
      if Lands(db, calls, n) { ConsumeCounts(Run(db, calls[..n]), calls[n].0); }
    }
  }

  lemma {:induction false} CountIsMonotone(
    db: Db, calls: Calls, few: ((Op, Backend)) -> bool, many: ((Op, Backend)) -> bool)
    requires forall c :: few(c) ==> many(c)
    ensures Count(db, calls, few) <= Count(db, calls, many)
    decreases |calls|
  {
    if calls != [] { CountIsMonotone(db, calls[..|calls| - 1], few, many); }
  }

  /** What callers were told is never more than what is stored: the table holds at least the proofs whose
      acceptance was reported. */
  lemma ReportedProofsAreStored(db: Db, calls: Calls)
    requires Sound(db)
    ensures |Run(db, calls).proofs| >= |db.proofs|
            + Count(db, calls, (c: (Op, Backend)) => c.0.Consume? && c.1.Working?)
            + Count(db, calls, (c: (Op, Backend)) => c.0.Reserve? && c.1.Working?)
  {
    ProofsAreAccountedFor(db, calls);
    CountIsMonotone(db, calls, (c: (Op, Backend)) => c.0.Consume? && c.1.Working?, (c: (Op, Backend)) => c.0.Consume?);
    CountIsMonotone(db, calls, (c: (Op, Backend)) => c.0.Reserve? && c.1.Working?, (c: (Op, Backend)) => c.0.Reserve?);
  }

  // The upgrade that introduces the clock mark ----------------------------------------------------------------

  ghost predicate IsSeed(db: Db, seed: int) {
    && (forall hash | hash in db.challenges :: db.challenges[hash].challenge.expiresAt <= seed)
    && (forall i | 0 <= i < |db.proofs| :: db.proofs[i].expiresAt <= seed)
    && (|| (exists hash | hash in db.challenges :: db.challenges[hash].challenge.expiresAt == seed)
        || (exists i | 0 <= i < |db.proofs| :: db.proofs[i].expiresAt == seed)
        || (seed == 0 && (db.challenges == map[] || db.proofs == [])))
  }

  /** The seed is the latest expiry on record, with an empty table standing for 0. */
  method ConservativeSeed(db: Db) returns (seed: Word)
    ensures IsSeed(db, seed)
  {
    var latest: Option<Word> := None;
    var todo := db.challenges.Keys;
    while todo != {}
      invariant todo <= db.challenges.Keys
      invariant latest.None? ==> todo == db.challenges.Keys
      invariant latest.Some? ==>
                  && (exists hash | hash in db.challenges.Keys - todo :: db.challenges[hash].challenge.expiresAt == latest.value)
                  && forall hash | hash in db.challenges.Keys - todo :: db.challenges[hash].challenge.expiresAt <= latest.value
      decreases |todo|
    {
      var hash :| hash in todo;
      var at := db.challenges[hash].challenge.expiresAt;
      assert hash in db.challenges.Keys - (todo - {hash});
      todo := todo - {hash};
      if latest.None? || latest.value < at { latest := Some(at); }
    }
    var lastProof: Option<Word> := None;
    for i := 0 to |db.proofs|
      invariant lastProof.None? <==> i == 0
      invariant lastProof.Some? ==>
                  && (exists k | 0 <= k < i :: db.proofs[k].expiresAt == lastProof.value)
                  && forall k | 0 <= k < i :: db.proofs[k].expiresAt <= lastProof.value
    {
      var at := db.proofs[i].expiresAt;
      if lastProof.None? || lastProof.value < at { lastProof := Some(at); }
    }
    var a := if latest.Some? then latest.value else 0;
    var b := if lastProof.Some? then lastProof.value else 0;
    seed := if a >= b then a else b;
  }

  /** After the upgrade no challenge issued before it can be claimed, in any later run, except at the one
      second that is at once the seed, its own deadline and still the clock mark. */
  lemma NoOldChallenge(db: Db, seed: Word, calls: Calls, c: Challenge, p: Proof, now: Word)
    requires Sound(db) && IsSeed(db, seed)
    requires c.hash in db.challenges
    requires Accepts(Run(db.(clock := Some(seed)), calls), Consume(p, c, now))
    ensures now == seed == c.expiresAt
    ensures Run(db.(clock := Some(seed)), calls).clock == Some(seed)
    ensures db.challenges[c.hash] == Row(c, false)
  {
    RunSound(db.(clock := Some(seed)), calls);
  }

  /** And at that second it can: the exception is exact. */
  lemma OldChallengeClaimableIff(db: Db, seed: Word, c: Challenge, p: Proof, now: Word)
    requires Sound(db) && IsSeed(db, seed) && |db.proofs| < CAPACITY
    requires db.Claimable(c) && c.WellFormed() && p.WellFormed() && !db.Repeats(p)
    ensures Accepts(db.(clock := Some(seed)), Consume(p, c, now)) <==> now == seed == c.expiresAt && now <= p.expiresAt
  {
    var seeded := db.(clock := Some(seed));
    assert seeded.Repeats(p) == db.Repeats(p);
    if Accepts(seeded, Consume(p, c, now)) { NoOldChallenge(db, seed, [], c, p, now); }
  }
}
