/** Every store of grants and leases reachable by grant events, lease issue and lease spending. */
module Leases {
  import opened Prelude
  import opened Authorization
  import opened GrantMachine

  datatype Store = Store(grants: map<Id, AccessGrant>, leases: map<Id, Lease>)

  datatype Step =
    | Event(grantId: Id, event: AuthorizationEvent, now: Time)
    | Issue(grantId: Id, request: LeaseRequest, leaseId: Id, now: Time)
    | Spend(leaseId: Id, operation: Id, now: Time)

  // Lease ids are fresh, so issuing under an id already in the store is not a step.
  function Apply(s: Store, step: Step): (r: Store) {
    match step
    case Event(id, event, now) =>
      if id in s.grants then s.(grants := s.grants[id := After(s.grants[id], event, now)]) else s
    case Issue(id, request, leaseId, now) =>
      if id !in s.grants || leaseId in s.leases then s
      else
        var issued := IssueLease(s.grants[id], request, leaseId, now);
        if issued.Err? then s
        else Store(s.grants[id := issued.value.0], s.leases[leaseId := issued.value.1])
    case Spend(leaseId, operation, now) =>
      if leaseId !in s.leases || s.leases[leaseId].grantId !in s.grants then s
      else
        var lease := s.leases[leaseId];
        var spent := SpendLease(s.grants[lease.grantId], lease, operation, now);
        if spent.Err? then s
        else Store(s.grants[lease.grantId := spent.value.0], s.leases[leaseId := spent.value.1])
  }

  function Run(s: Store, steps: seq<Step>): (r: Store)
    decreases |steps|
  {
    if steps == [] then s else Run(Apply(s, steps[0]), steps[1..])
  }

  // The narrowing promise: same binding, no wider scope, no later expiry.
  ghost predicate Within(lease: Lease, grant: AccessGrant) {
    && lease.grantId == grant.grantId
    && lease.subject == grant.subject
    && lease.device == grant.device
    && lease.principal == grant.principal
    && lease.taskScope == grant.taskScope
    && lease.workspaces <= grant.workspaces
    && lease.capabilities <= grant.capabilities
    && lease.expiresAt <= grant.expiresAt
  }

  ghost predicate LeaseSound(grants: map<Id, AccessGrant>, id: Id, lease: Lease) {
    && lease.leaseId == id
    && lease.grantId in grants
    && Within(lease, grants[lease.grantId])
    && (grants[lease.grantId].kind.OneShot? ==>
          && grants[lease.grantId].issuedLease == Some(id)
          && (lease.consumedAt.Some? ==> grants[lease.grantId].status.Consumed?))
  }

  ghost predicate Sound(s: Store) {
    && (forall id | id in s.grants :: s.grants[id].grantId == id)
    && (forall id | id in s.leases :: LeaseSound(s.grants, id, s.leases[id]))
  }

  // What every step keeps of a grant.
  ghost predicate GrantKept(g: AccessGrant, h: AccessGrant) {
    SameTerms(g, h) && (g.status.Terminal() ==> h.status == g.status)
  }

  lemma AfterKeepsGrant(g: AccessGrant, event: AuthorizationEvent, now: Time)
    ensures GrantKept(g, After(g, event, now))
    ensures After(g, event, now).issuedLease == g.issuedLease
  {
    TermsNeverChange(g, [(event, now)]);
    assert [(event, now)][1..] == [];
    assert RunEvents(g, [(event, now)]) == After(g, event, now);
  }

  ghost predicate Advanced(s: Store, t: Store) {
    && s.leases.Keys <= t.leases.Keys
    && s.grants.Keys == t.grants.Keys
    && (forall id | id in s.grants :: GrantKept(s.grants[id], t.grants[id]))
    && (forall id | id in s.leases && s.leases[id].consumedAt.Some? :: t.leases[id] == s.leases[id])
  }

  lemma EventKeepsSound(s: Store, id: Id, event: AuthorizationEvent, now: Time)
    requires Sound(s) && id in s.grants
    ensures var t := Apply(s, Event(id, event, now)); Sound(t) && Advanced(s, t)
  {
    AfterKeepsGrant(s.grants[id], event, now);
  }

  lemma IssueKeepsSound(s: Store, id: Id, request: LeaseRequest, leaseId: Id, now: Time)
    requires Sound(s) && id in s.grants && leaseId !in s.leases
    ensures var t := Apply(s, Issue(id, request, leaseId, now)); Sound(t) && Advanced(s, t)
  {
    var g := s.grants[id];
    var issued := IssueLease(g, request, leaseId, now);
    if issued.Ok? {
      var t := Apply(s, Issue(id, request, leaseId, now));
      assert GrantKept(g, issued.value.0);
      forall other | other in t.leases ensures LeaseSound(t.grants, other, t.leases[other]) {
        if other != leaseId {
          assert LeaseSound(s.grants, other, s.leases[other]);
        }
      }
    }
  }

  lemma SpendKeepsSound(s: Store, leaseId: Id, operation: Id, now: Time)
    requires Sound(s) && leaseId in s.leases
    ensures var t := Apply(s, Spend(leaseId, operation, now)); Sound(t) && Advanced(s, t)
  {
    var lease := s.leases[leaseId];
    assert LeaseSound(s.grants, leaseId, lease);
    var g := s.grants[lease.grantId];
    var spent := SpendLease(g, lease, operation, now);
    if spent.Ok? {
      var t := Apply(s, Spend(leaseId, operation, now));
      assert GrantKept(g, spent.value.0) && spent.value.0.issuedLease == g.issuedLease;
      forall other | other in t.leases ensures LeaseSound(t.grants, other, t.leases[other]) {
        assert LeaseSound(s.grants, other, s.leases[other]);
      }
    }
  }

  lemma StepKeepsSound(s: Store, step: Step)
    requires Sound(s)
    ensures Sound(Apply(s, step)) && Advanced(s, Apply(s, step))
  {
    match step
    case Event(id, event, now) => if id in s.grants { EventKeepsSound(s, id, event, now); }
    case Issue(id, request, leaseId, now) =>
      if id in s.grants && leaseId !in s.leases { IssueKeepsSound(s, id, request, leaseId, now); }
    case Spend(leaseId, operation, now) => if leaseId in s.leases { SpendKeepsSound(s, leaseId, operation, now); }
  }

  /** In every reachable store each lease stays within its grant, one-shot grants have at most one lease
      ever, issued leases are never forgotten and spent leases never change again. */
  lemma {:induction false} LeasesStayNarrow(s: Store, steps: seq<Step>)
    requires Sound(s)
    ensures Sound(Run(s, steps)) && Advanced(s, Run(s, steps))
    decreases |steps|
  {
    if steps == [] {
    } else {
      var t := Apply(s, steps[0]);
      StepKeepsSound(s, steps[0]);
      LeasesStayNarrow(t, steps[1..]);
      forall id | id in s.grants ensures GrantKept(s.grants[id], Run(s, steps).grants[id]) {
        assert GrantKept(s.grants[id], t.grants[id]) && GrantKept(t.grants[id], Run(t, steps[1..]).grants[id]);
      }
    }
  }

  lemma OneShotHasOneLease(s: Store, steps: seq<Step>, a: Id, b: Id)
    requires Sound(s)
    requires a in Run(s, steps).leases && b in Run(s, steps).leases
    requires Run(s, steps).leases[a].grantId == Run(s, steps).leases[b].grantId
    requires Run(s, steps).leases[a].grantId in Run(s, steps).grants
    requires Run(s, steps).grants[Run(s, steps).leases[a].grantId].kind.OneShot?
    ensures a == b
  {
    LeasesStayNarrow(s, steps);
  }

  /** In a reachable store a lease can be spent exactly when its grant is usable and the lease is
      unspent and unexpired: no other refusal of the validator or of the state machine can occur. */
  lemma SpendableIff(s: Store, steps: seq<Step>, leaseId: Id, operation: Id, now: Time)
    requires Sound(s)
    requires leaseId in Run(s, steps).leases
    ensures var t := Run(s, steps);
            var lease := t.leases[leaseId];
            && lease.grantId in t.grants
            && (SpendLease(t.grants[lease.grantId], lease, operation, now).Ok? <==>
                t.grants[lease.grantId].UsableAt(now) && lease.consumedAt.None? && now < lease.expiresAt)
  {
    LeasesStayNarrow(s, steps);
  }

  /** A lease is issued exactly when it asks for something for a positive time, within the workspaces and
      capabilities of a usable grant that may still issue; and it ends when asked or with its grant. */
  lemma IssuableIff(g: AccessGrant, request: LeaseRequest, leaseId: Id, now: Time)
    ensures IssueLease(g, request, leaseId, now).Ok? <==>
            && request.lifetime > 0 && request.workspaces != {}
            && g.status.Active? && now < g.expiresAt && (g.kind.OneShot? ==> g.issuedLease.None?)
            && request.workspaces <= g.workspaces && request.capabilities <= g.capabilities
    ensures IssueLease(g, request, leaseId, now).Ok? ==>
              var (after, lease) := IssueLease(g, request, leaseId, now).value;
              && after == g.(issuedLease := Some(leaseId))
              && lease.leaseId == leaseId && lease.grantId == g.grantId && lease.subject == g.subject
              && lease.device == g.device && lease.principal == g.principal && lease.taskScope == g.taskScope
              && lease.workspaces == request.workspaces && lease.capabilities == request.capabilities
              && lease.issuedAt == now && lease.consumedAt.None? && lease.consumedBy.None?
              && lease.expiresAt <= now + request.lifetime && lease.expiresAt <= g.expiresAt
              && (lease.expiresAt == now + request.lifetime || lease.expiresAt == g.expiresAt)
  {
  }
}
