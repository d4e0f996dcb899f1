/** Activation of owner manifests (crates/identity/src/owner_policy_authority.rs): any number of
    authorities share one compare-and-swap store, whose commit may take effect and still report failure. */
module OwnerPolicy {
  import opened Prelude
  import opened Words
  import opened Authorization
  import opened Identity
  import opened OwnerManifest
  import Replay

  datatype Committed = Committed(generation: nat, digest: Digest)

  datatype ActivePolicy = ActivePolicy(manifest: VerifiedManifest, digest: Digest)
  {
    function Entry(): (r: Committed) { Committed(manifest.generation, digest) }
  }

  // How a commit whose expectation holds can end.
  datatype Outcome = Done | DoneUnreported | NotDone

  function Last<T>(s: seq<T>): (r: T)
    requires s != []
  {
    s[|s| - 1]
  }

  // The store's contract: compare with the latest entry, then append; the flag is what the caller is told.
  function Swap(history: seq<Committed>, expected: Committed, next: Committed, outcome: Outcome)
    : (r: (seq<Committed>, bool))
    requires history != []
    ensures r.0 == history || (r.0 == history + [next] && Last(history) == expected)
    ensures r.1 ==> r.0 == history + [next]
  {
    if Last(history) != expected || outcome.NotDone? then (history, false) else (history + [next], outcome.Done?)
  }

  // Construction before its second read: the manifest must be exactly the committed one.
  ghost predicate Opens(x: Primitives, root: Key, committed: Committed, bytes: Bytes, now: Word) {
    && committed.generation > 0
    && OwnerApproved(x, bytes, root, committed.generation - 1, now)
    && Committed(Approved(x, bytes, root, committed.generation - 1, now).generation, x.sha256(bytes)) == committed
  }

  ghost function Opened(x: Primitives, root: Key, committed: Committed, bytes: Bytes, now: Word): (r: ActivePolicy)
    requires Opens(x, root, committed, bytes, now)
    ensures r.Entry() == committed
  {
    ActivePolicy(Approved(x, bytes, root, committed.generation - 1, now), x.sha256(bytes))
  }

  ghost function Candidate(x: Primitives, root: Key, active: ActivePolicy, bytes: Bytes, now: Word): (r: Option<ActivePolicy>)
    ensures r.Some? ==> active.manifest.generation < r.value.manifest.generation <= MAX_GENERATION
    ensures r.Some? ==> IsPolicy(r.value.manifest.issuers)
  {
    var previous := active.manifest.generation;
    if OwnerApproved(x, bytes, root, previous, now)
    then Some(ActivePolicy(Approved(x, bytes, root, previous, now), x.sha256(bytes))) else None
  }

  // Commit and activate: a rejected manifest changes nothing, a commit not confirmed disables for good.
  ghost function Activated(
    x: Primitives, root: Key, history: seq<Committed>, active: Option<ActivePolicy>, bytes: Bytes, now: Word, outcome: Outcome)
    : (r: (seq<Committed>, Option<ActivePolicy>))
    requires history != []
  {
    if active.None? || Candidate(x, root, active.value, bytes, now).None? then (history, active)
    else
      var candidate := Candidate(x, root, active.value, bytes, now).value;
      var (after, told) := Swap(history, active.value.Entry(), candidate.Entry(), outcome);
      (after, if told then Some(candidate) else None)
  }

  // The objects -----------------------------------------------------------------------------------------------

  class TrustedStore {
    var history: seq<Committed>

    constructor (first: Committed)
      ensures history == [first]
    {
      history := [first];
    }

    method CompareAndCommit(expected: Committed, next: Committed, outcome: Outcome) returns (told: bool)
      requires history != []
      modifies this
      ensures (history, told) == Swap(old(history), expected, next, outcome)
    {
      told := false;
      if history[|history| - 1] == expected && !outcome.NotDone? {
        history := history + [next];
        told := outcome.Done?;
      }
    }
  }

  class OwnerPolicyAuthority {
    const root: Key
    const store: TrustedStore
    var active: Option<ActivePolicy>

    constructor (root: Key, store: TrustedStore, policy: ActivePolicy)
      ensures this.root == root && this.store == store && active == Some(policy)
    {
      this.root := root;
      this.store := store;
      active := Some(policy);
    }

    // The two reads are what the store held then; other processes may have committed in between.
    static method FromTrustedStore(
      x: Primitives, root: Key, store: TrustedStore, first: Committed, second: Committed, bytes: Bytes, now: Word)
      returns (r: Result<OwnerPolicyAuthority, AttestationError>)
      ensures r.Ok? <==> Opens(x, root, first, bytes, now) && second == first
      ensures r.Ok? ==> r.value.active == Some(Opened(x, root, first, bytes, now)) && r.value.root == root
                        && r.value.store == store
    {
      if first.generation == 0 { return Err(Invalid); }
      var verified := VerifyOwnerSignedIssuerManifest(x, bytes, root, first.generation - 1, now);
      if verified.Err? { return Err(verified.error); }
      if verified.value.generation != first.generation || x.sha256(bytes) != first.digest { return Err(Invalid); }
      if second != first { return Err(StorageUnavailable); }
      var authority := new OwnerPolicyAuthority(root, store, ActivePolicy(verified.value, x.sha256(bytes)));
      return Ok(authority);
    }

    method VerifyCandidateCommitAndActivate(x: Primitives, bytes: Bytes, now: Word, outcome: Outcome)
      returns (r: Result<nat, AttestationError>)
      requires store.history != []
      modifies this`active, store
      ensures (store.history, active) == Activated(x, root, old(store.history), old(active), bytes, now, outcome)
      ensures r.Ok? ==> active.Some? && r.value == active.value.manifest.generation
      ensures r == Err(Invalid) <==> old(active).Some? && Candidate(x, root, old(active).value, bytes, now).None?
      ensures r == Err(StorageUnavailable) <==> active.None?
    {
      if active.None? { return Err(StorageUnavailable); }
      var previous := active.value.manifest.generation;
      var expected := active.value.digest;
      var candidate := VerifyOwnerSignedIssuerManifest(x, bytes, root, previous, now);
      if candidate.Err? { return Err(candidate.error); }
      var digest := x.sha256(bytes);
      var told := store.CompareAndCommit(
        Committed(previous, expected), Committed(candidate.value.generation, digest), outcome);
      if !told {
        active := None;
        return Err(StorageUnavailable);
      }
      active := Some(ActivePolicy(candidate.value, digest));
      return Ok(candidate.value.generation);
    }

    method VerifyActorAndConsume(x: Primitives, proof: Bytes, e: ExpectedRequest, storage: Replay.Storage, backend: Replay.Backend)
      returns (r: Result<VerifiedPrincipal, AttestationError>)
      requires active.Some? ==> IsPolicy(active.value.manifest.issuers)
      requires storage.db.Keyed()
      modifies storage
      ensures r.Ok? <==>
              && backend.Working? && active.Some?
              && Vouched(x, active.value.manifest, active.value.manifest.generation, proof, e, old(storage.db))
      ensures storage.db ==
              if active.Some? && Vouched(x, active.value.manifest, active.value.manifest.generation, proof, e, old(storage.db))
              then Replay.Step(old(storage.db), StoreCall(x, x.parseClaims(proof).value.payload, e), backend)
              else old(storage.db)
    {
      if active.None? { return Err(StorageUnavailable); }
      r := VerifyAndConsume(x, active.value.manifest, proof, e, storage, active.value.manifest.generation, backend);
    }
  }

  // Many authorities on one store --------------------------------------------------------------------------------

  // Under construction between its two reads, or open; open with no policy means disabled.
  datatype Authority = Opening(seen: Committed, policy: ActivePolicy) | Open(active: Option<ActivePolicy>)

  datatype State = State(history: seq<Committed>, authorities: map<Id, Authority>)

  datatype Event =
    | BeginOpen(a: Id, bytes: Bytes, now: Word)
    | FinishOpen(a: Id)
    | Activate(a: Id, bytes: Bytes, now: Word, outcome: Outcome)

  ghost function Apply(x: Primitives, root: Key, s: State, event: Event): (r: State)
    requires s.history != []
    ensures r.history != []
  {
    var a := event.a;
    match event
    case BeginOpen(_, bytes, now) =>
      if a in s.authorities || !Opens(x, root, Last(s.history), bytes, now) then s
      else s.(authorities := s.authorities[a := Opening(Last(s.history), Opened(x, root, Last(s.history), bytes, now))])
    case FinishOpen(_) =>
      if a !in s.authorities || !s.authorities[a].Opening? then s
      else if Last(s.history) != s.authorities[a].seen then s.(authorities := s.authorities - {a})
      else s.(authorities := s.authorities[a := Open(Some(s.authorities[a].policy))])
    case Activate(_, bytes, now, outcome) =>
      if a !in s.authorities || !s.authorities[a].Open? then s
      else
        var (history, active) := Activated(x, root, s.history, s.authorities[a].active, bytes, now, outcome);
        State(history, s.authorities[a := Open(active)])
  }

  ghost function Run(x: Primitives, root: Key, s: State, events: seq<Event>): (r: State)
    requires s.history != []
    ensures r.history != []
    decreases |events|
  {
    if events == [] then s else Apply(x, root, Run(x, root, s, events[..|events| - 1]), Last(events))
  }

  // The policy an authority verifies actors under, if any.
  function Policy(s: State, a: Id): (r: Option<ActivePolicy>) {
    if a in s.authorities && s.authorities[a].Open? then s.authorities[a].active else None
  }

  ghost predicate Live(s: State, a: Id) { Policy(s, a).Some? }

  ghost predicate IsCurrent(s: State, a: Id)
    requires s.history != []
  {
    Live(s, a) && Policy(s, a).value.Entry() == Last(s.history)
  }

  ghost predicate Disabled(s: State, a: Id) {
    a in s.authorities && s.authorities[a] == Open(None)
  }

  ghost predicate Increasing(history: seq<Committed>) {
    && history != []
    && (forall i, j | 0 <= i < j < |history| :: history[i].generation < history[j].generation)
    && (forall i | 0 < i < |history| :: history[i].generation <= MAX_GENERATION)
  }

  ghost predicate Recorded(history: seq<Committed>, authority: Authority) {
    match authority
    case Opening(seen, policy) => policy.Entry() == seen && seen in history && IsPolicy(policy.manifest.issuers)
    case Open(active) => active.Some? ==> active.value.Entry() in history && IsPolicy(active.value.manifest.issuers)
  }

  ghost predicate Sound(s: State) {
    Increasing(s.history) && forall a | a in s.authorities :: Recorded(s.history, s.authorities[a])
  }

  lemma ActivateSound(
    x: Primitives, root: Key, history: seq<Committed>, active: Option<ActivePolicy>, bytes: Bytes, now: Word, outcome: Outcome)
    requires Increasing(history) && Recorded(history, Open(active))
    ensures var (after, next) := Activated(x, root, history, active, bytes, now, outcome);
            Increasing(after) && history <= after && Recorded(after, Open(next))
  {
    var (after, next) := Activated(x, root, history, active, bytes, now, outcome);
    if after != history {
      var candidate := Candidate(x, root, active.value, bytes, now).value;
      assert after == history + [candidate.Entry()];
      assert candidate.Entry() == after[|history|];
    }
  }

  lemma StepSound(x: Primitives, root: Key, s: State, event: Event)
    requires Sound(s)
    ensures Sound(Apply(x, root, s, event)) && s.history <= Apply(x, root, s, event).history
  {
    var t := Apply(x, root, s, event);
    if event.Activate? && event.a in s.authorities && s.authorities[event.a].Open? {
      ActivateSound(x, root, s.history, s.authorities[event.a].active, event.bytes, event.now, event.outcome);
      forall a | a in t.authorities ensures Recorded(t.history, t.authorities[a]) {
        if a != event.a { assert Recorded(s.history, s.authorities[a]); }
      }
    }
  }

  /** In every reachable state the committed history has strictly increasing generations and only ever
      grows, and each authority's active (generation, digest) is an entry of it. */
  lemma {:induction false} RunSound(x: Primitives, root: Key, s: State, events: seq<Event>)
    requires Sound(s)
    ensures Sound(Run(x, root, s, events)) && s.history <= Run(x, root, s, events).history
    decreases |events|
  {
    if events != [] {
      var init := events[..|events| - 1];
      RunSound(x, root, s, init);
      StepSound(x, root, Run(x, root, s, init), Last(events));
    }
  }

  lemma {:induction false} GenerationsClimb(history: seq<Committed>, n: nat)
    requires Increasing(history) && n < |history|
    ensures history[n].generation >= history[0].generation + n
  {
    if n > 0 { GenerationsClimb(history, n - 1); }
  }

  /** Activations are bounded: whatever is attempted, the store takes at most MAX_GENERATION commits after
      the entry it was provisioned with. */
  lemma ActivationsAreBounded(x: Primitives, root: Key, s: State, events: seq<Event>)
    requires Sound(s) && |s.history| == 1
    ensures |Run(x, root, s, events).history| - 1 <= MAX_GENERATION
    ensures s.history[0].generation <= MAX_GENERATION ==>
              |Run(x, root, s, events).history| - 1 <= MAX_GENERATION - s.history[0].generation
  {
    RunSound(x, root, s, events);
    var history := Run(x, root, s, events).history;
    GenerationsClimb(history, |history| - 1);
  }

  lemma StepDisabled(x: Primitives, root: Key, s: State, event: Event, a: Id)
    requires s.history != []
    ensures Disabled(s, a) ==> Disabled(Apply(x, root, s, event), a)
    ensures Live(s, a) && !Live(Apply(x, root, s, event), a) ==> Disabled(Apply(x, root, s, event), a)
  {
  }

  lemma {:induction false} DisabledStays(x: Primitives, root: Key, s: State, events: seq<Event>, a: Id)
    requires s.history != [] && Disabled(s, a)
    ensures Disabled(Run(x, root, s, events), a)
    decreases |events|
  {
    if events != [] {
      DisabledStays(x, root, s, events[..|events| - 1], a);
      StepDisabled(x, root, Run(x, root, s, events[..|events| - 1]), Last(events), a);
    }
  }

  /** An activation whose commit was not confirmed, for whatever reason and whether or not it took effect,
      leaves that authority without a policy for the rest of any run. */
  lemma FailedCommitIsForever(x: Primitives, root: Key, s: State, a: Id, bytes: Bytes, now: Word, outcome: Outcome, after: seq<Event>)
    requires s.history != [] && Live(s, a) && Candidate(x, root, Policy(s, a).value, bytes, now).Some?
    requires outcome != Done || !IsCurrent(s, a)
    ensures !Live(Run(x, root, Apply(x, root, s, Activate(a, bytes, now, outcome)), after), a)
  {
    DisabledStays(x, root, Apply(x, root, s, Activate(a, bytes, now, outcome)), after, a);
  }

  /** A manifest that fails verification changes nothing at all. */
  lemma RejectedCandidateChangesNothing(x: Primitives, root: Key, s: State, a: Id, bytes: Bytes, now: Word, outcome: Outcome)
    requires s.history != [] && Live(s, a) && Candidate(x, root, Policy(s, a).value, bytes, now).None?
    ensures Apply(x, root, s, Activate(a, bytes, now, outcome)) == s
  {
    assert s.authorities[a := s.authorities[a]] == s.authorities;
  }

  // Which authorities are up to date ------------------------------------------------------------------------------

  ghost predicate Commits(s: State, t: State) { s.history != t.history }

  lemma OthersKeepPolicy(x: Primitives, root: Key, s: State, event: Event, a: Id)
    requires s.history != [] && event.a != a
    ensures Policy(Apply(x, root, s, event), a) == Policy(s, a)
  {
  }

  // A longer history ends in a newer entry than any it held.
  lemma CommitSupersedes(before: seq<Committed>, after: seq<Committed>, entry: Committed)
    requires Increasing(after) && before < after && entry in before
    ensures entry != Last(after)
  {
    var i :| 0 <= i < |before| && before[i] == entry;
    assert after[i] == entry;
  }

  lemma OwnStep(x: Primitives, root: Key, s: State, event: Event)
    requires Sound(s) && Live(s, event.a) && Live(Apply(x, root, s, event), event.a)
    ensures IsCurrent(s, event.a) ==> IsCurrent(Apply(x, root, s, event), event.a)
  {
  }

  /** One step, exactly: an authority that was current and still has a policy is current afterwards unless
      the step was another authority's commit; and one that is behind stays behind while it lives. */
  lemma StepCurrentIff(x: Primitives, root: Key, s: State, event: Event, a: Id)
    requires Sound(s) && Live(s, a) && Live(Apply(x, root, s, event), a)
    ensures var t := Apply(x, root, s, event);
            && (IsCurrent(s, a) ==> (IsCurrent(t, a) <==> event.a == a || !Commits(s, t)))
            && (!IsCurrent(s, a) ==> !IsCurrent(t, a) && Policy(t, a) == Policy(s, a))
  {
    var t := Apply(x, root, s, event);
    assert Recorded(s.history, s.authorities[a]);
    if event.a == a {
      if !IsCurrent(s, a) { BehindKeepsOrFails(x, root, s, event); } else { OwnStep(x, root, s, event); }
    } else {
      OthersKeepPolicy(x, root, s, event, a);
      StepSound(x, root, s, event);
      if Commits(s, t) { CommitSupersedes(s.history, t.history, Policy(s, a).value.Entry()); }
    }
  }

  lemma BehindKeepsOrFails(x: Primitives, root: Key, s: State, event: Event)
    requires Sound(s) && Live(s, event.a) && !IsCurrent(s, event.a) && Live(Apply(x, root, s, event), event.a)
    ensures Apply(x, root, s, event).history == s.history
    ensures Policy(Apply(x, root, s, event), event.a) == Policy(s, event.a)
  {
  }

  // In some step of the run another authority committed.
  ghost predicate EverOvertaken(x: Primitives, root: Key, s: State, events: seq<Event>, a: Id)
    requires s.history != []
    decreases |events|
  {
    events != [] &&
    (var init := events[..|events| - 1];
     || EverOvertaken(x, root, s, init, a)
     || (Last(events).a != a && Commits(Run(x, root, s, init), Run(x, root, s, events))))
  }

  /** Over whole runs: a current authority that still has a policy at the end has the latest committed one
      if and only if no other authority committed meanwhile. Alone on its store it is never behind. */
  lemma {:induction false} CurrentIffNotOvertaken(x: Primitives, root: Key, s: State, events: seq<Event>, a: Id)
    requires Sound(s) && IsCurrent(s, a) && Live(Run(x, root, s, events), a)
    ensures IsCurrent(Run(x, root, s, events), a) <==> !EverOvertaken(x, root, s, events, a)
    decreases |events|
  {
    if events != [] {
      var n := |events| - 1;
      var init := events[..n];
      var u := Run(x, root, s, init);
      RunSound(x, root, s, init);
      if !Live(u, a) {
        NotLiveStays(x, root, s, init, a);
        StepDisabled(x, root, u, Last(events), a);
      }
      CurrentIffNotOvertaken(x, root, s, init, a);
      StepCurrentIff(x, root, u, Last(events), a);
    }
  }

  lemma {:induction false} NotLiveStays(x: Primitives, root: Key, s: State, events: seq<Event>, a: Id)
    requires s.history != [] && Live(s, a)
    ensures Live(Run(x, root, s, events), a) || Disabled(Run(x, root, s, events), a)
    decreases |events|
  {
    if events != [] {
      NotLiveStays(x, root, s, events[..|events| - 1], a);
      StepDisabled(x, root, Run(x, root, s, events[..|events| - 1]), Last(events), a);
    }
  }

  /** An authority that is behind can never move the store: its next verified candidate disables it. */
  lemma BehindNeverCommits(x: Primitives, root: Key, s: State, a: Id, bytes: Bytes, now: Word, outcome: Outcome)
    requires Sound(s) && Live(s, a) && !IsCurrent(s, a) && Candidate(x, root, Policy(s, a).value, bytes, now).Some?
    ensures Apply(x, root, s, Activate(a, bytes, now, outcome)).history == s.history
    ensures Disabled(Apply(x, root, s, Activate(a, bytes, now, outcome)), a)
  {
  }

  /** An up-to-date authority whose candidate the owner approved and whose commit is confirmed has exactly that
      manifest, and the store ends in exactly its generation and digest. */
  lemma ActivationOutcome(x: Primitives, root: Key, s: State, a: Id, bytes: Bytes, now: Word)
    requires s.history != [] && IsCurrent(s, a)
    requires OwnerApproved(x, bytes, root, Policy(s, a).value.manifest.generation, now)
    ensures var t := Apply(x, root, s, Activate(a, bytes, now, Done));
            var payload := x.parseManifest(bytes).value.payload;
            && t.history == s.history + [Committed(payload.generation, x.sha256(bytes))]
            && Policy(t, a).Some? && Policy(t, a).value.digest == x.sha256(bytes)
            && Policy(t, a).value.manifest.generation == payload.generation
            && Policy(t, a).value.manifest.issuedAt == payload.issuedAt
            && Policy(t, a).value.manifest.expiresAt == payload.expiresAt
            && |Policy(t, a).value.manifest.issuers| == |payload.keys|
            && (forall b | b != a :: Policy(t, b) == Policy(s, b))
  {
  }

  /** Being behind does happen: two current authorities, one commits, and the other goes on verifying
      under the superseded policy. */
  lemma OtherCommitLeavesBehind(x: Primitives, root: Key, s: State, a: Id, b: Id, bytes: Bytes, now: Word)
    requires Sound(s) && a != b && IsCurrent(s, a) && IsCurrent(s, b)
    requires Candidate(x, root, Policy(s, b).value, bytes, now).Some?
    ensures var t := Apply(x, root, s, Activate(b, bytes, now, Done));
            IsCurrent(t, b) && Live(t, a) && !IsCurrent(t, a) && Policy(t, a) == Policy(s, a)
  {
    StepCurrentIff(x, root, s, Activate(b, bytes, now, Done), a);
  }

  /** A construction that succeeds publishes the latest committed policy, whatever was committed between
      its two reads. */
  lemma OpenedIsLatest(x: Primitives, root: Key, s: State, a: Id)
    requires Sound(s) && !Live(s, a) && Live(Apply(x, root, s, FinishOpen(a)), a)
    ensures IsCurrent(Apply(x, root, s, FinishOpen(a)), a)
  {
    assert Recorded(s.history, s.authorities[a]);
  }
}
