/** The authorization state machine of crates/sessions/src/grant_machine.rs. */
module GrantMachine {
  import opened Prelude
  import opened Authorization

  datatype AuthorizationEvent =
    | Approve
    | Deny(reason: string)
    | Suspend
    | Resume
    | CheckExpiry
    | Revoke(why: Option<string>)
    | ConsumeLease(leaseId: Id)

  datatype GrantError =
    | TerminalState(current: Status)
    | InvalidTransition(from: Status, event: AuthorizationEvent)
    | LeaseNotIssuedByGrant(leaseId: Id)
    | Constraint(error: AuthorizationError)

  function Transition(g: AccessGrant, event: AuthorizationEvent, now: Time): (r: Result<AccessGrant, GrantError>)
  {
    if g.status.Terminal() then Err(TerminalState(g.status))
    else
      match event
      case Revoke(why) => Ok(g.(status := Revoked, revokedAt := Some(now), revocationReason := why))
      case Approve =>
        if g.status.PendingApproval? then Ok(g.(status := Active, approvedAt := Some(now)))
        else Err(InvalidTransition(g.status, event))
      case Deny(reason) =>
        if g.status.PendingApproval?
        then Ok(g.(status := Revoked, revokedAt := Some(now), revocationReason := Some(reason)))
        else Err(InvalidTransition(g.status, event))
      case Suspend =>
        if g.status.Active? then Ok(g.(status := Suspended)) else Err(InvalidTransition(g.status, event))
      case Resume =>
        if g.status.Suspended? then Ok(g.(status := Active)) else Err(InvalidTransition(g.status, event))
      case CheckExpiry =>
        Ok(if g.ExpiredAt(now) then g.(status := Expired) else g)
      case ConsumeLease(leaseId) =>
        if !g.status.Active? || g.kind != OneShot then Err(InvalidTransition(g.status, event))
        else if g.issuedLease != Some(leaseId) then Err(LeaseNotIssuedByGrant(leaseId))
        else Ok(g.(status := Consumed, consumedAt := Some(now)))
  }

  // A refused event leaves the caller with the grant it had.
  function After(g: AccessGrant, event: AuthorizationEvent, now: Time): (r: AccessGrant) {
    var next := Transition(g, event, now);
    if next.Ok? then next.value else g
  }

  // One grant under any sequence of (event, instant) pairs; the instants need not be ordered.
  function RunEvents(g: AccessGrant, events: seq<(AuthorizationEvent, Time)>): (r: AccessGrant)
    decreases |events|
  {
    if events == [] then g
    else RunEvents(After(g, events[0].0, events[0].1), events[1..])
  }

  ghost predicate Approved(events: seq<(AuthorizationEvent, Time)>) {
    exists i | 0 <= i < |events| :: events[i].0.Approve?
  }

  lemma {:induction false} TermsNeverChange(g: AccessGrant, events: seq<(AuthorizationEvent, Time)>)
    ensures SameTerms(g, RunEvents(g, events))
    ensures RunEvents(g, events).issuedLease == g.issuedLease
    ensures g.status.Terminal() ==> RunEvents(g, events) == g
    decreases |events|
  {
    if events == [] {
    } else {
      TermsNeverChange(After(g, events[0].0, events[0].1), events[1..]);
    }
  }

  lemma {:induction false} NotApprovedStaysUnusable(g: AccessGrant, events: seq<(AuthorizationEvent, Time)>)
    requires g.status.PendingApproval? || g.status.Terminal()
    requires !Approved(events)
    ensures var h := RunEvents(g, events); h.status.PendingApproval? || h.status.Terminal()
    decreases |events|
  {
    if events == [] {
    } else {
      assert !events[0].0.Approve?;
      assert forall i | 0 <= i < |events[1..]| :: events[1..][i] == events[i + 1];
      NotApprovedStaysUnusable(After(g, events[0].0, events[0].1), events[1..]);
    }
  }

  /** A grant created by a request is usable only if a local Approve occurred, and only before the
      deadline fixed when the request was recorded. */
  lemma RequestedGrantNeedsApproval(
    request: GrantRequest, grantId: Id, issued: Time, events: seq<(AuthorizationEvent, Time)>, now: Time)
    requires RunEvents(Requested(request, grantId, issued), events).UsableAt(now)
    ensures Approved(events)
    ensures now < issued + request.lifetime
  {
    var g := Requested(request, grantId, issued);
    TermsNeverChange(g, events);
    if !Approved(events) {
      NotApprovedStaysUnusable(g, events);
    }
  }

  // The time stamps on a grant agree with its state.
  ghost predicate Stamped(g: AccessGrant) {
    && (g.status.PendingApproval? ==> g.approvedAt.None?)
    && (g.status.Active? || g.status.Suspended? || g.status.Consumed? ==> g.approvedAt.Some?)
    && (g.revokedAt.Some? <==> g.status.Revoked?)
    && (g.consumedAt.Some? <==> g.status.Consumed?)
    && (g.status.Consumed? ==> g.kind.OneShot? && g.issuedLease.Some?)
    && (g.revocationReason.Some? ==> g.status.Revoked?)
  }

  lemma {:induction false} StampsKept(g: AccessGrant, events: seq<(AuthorizationEvent, Time)>)
    requires Stamped(g)
    ensures Stamped(RunEvents(g, events))
    decreases |events|
  {
    if events == [] {
    } else {
      StampsKept(After(g, events[0].0, events[0].1), events[1..]);
    }
  }

  /** From a request on, under any events at any instants, the stamps tell the state: revoked and consumed
      exactly when stamped so, approved whenever it was ever usable. */
  lemma StampsTellStatus(request: GrantRequest, grantId: Id, issued: Time, events: seq<(AuthorizationEvent, Time)>)
    ensures Stamped(RunEvents(Requested(request, grantId, issued), events))
  {
    StampsKept(Requested(request, grantId, issued), events);
  }

  /** The expiry check: any grant that has not ended ends as expired exactly from its deadline on, and is
      otherwise left alone. */
  lemma ExpiryOutcome(g: AccessGrant, now: Time)
    ensures !g.status.Terminal() && now >= g.expiresAt ==> After(g, CheckExpiry, now) == g.(status := Expired)
    ensures g.status.Terminal() || now < g.expiresAt ==> After(g, CheckExpiry, now) == g
  {
  }

  /** A pending request can be approved after its deadline, but the grant it yields is never usable. */
  lemma LateApprovalIsAcceptedButUseless(request: GrantRequest, grantId: Id, issued: Time, at: Time)
    requires at >= issued + request.lifetime
    ensures Transition(Requested(request, grantId, issued), Approve, at).Ok?
    ensures forall events: seq<(AuthorizationEvent, Time)>, now: Time | now >= at ::
              !RunEvents(After(Requested(request, grantId, issued), Approve, at), events).UsableAt(now)
  {
    var g := After(Requested(request, grantId, issued), Approve, at);
    forall events: seq<(AuthorizationEvent, Time)>, now: Time | now >= at
      ensures !RunEvents(g, events).UsableAt(now)
    {
      TermsNeverChange(g, events);
    }
  }

  function IssueLease(g: AccessGrant, request: LeaseRequest, leaseId: Id, now: Time)
    : (r: Result<(AccessGrant, Lease), GrantError>)
  {
    var lease := IssuedFor(g, request, leaseId, now);
    if lease.Err? then Err(Constraint(lease.error))
    else Ok((g.(issuedLease := Some(leaseId)), lease.value))
  }

  function SpendLease(g: AccessGrant, lease: Lease, operation: Id, now: Time)
    : (r: Result<(AccessGrant, Lease), GrantError>)
  {
    var refusal := ValidateAgainst(lease, g, now);
    if refusal.Some? then Err(Constraint(refusal.value))
    else
      var spent := ConsumedBy(lease, operation, now);
      if spent.Err? then Err(Constraint(spent.error))
      else if g.kind.OneShot? then
        var next := Transition(g, ConsumeLease(lease.leaseId), now);
        if next.Err? then Err(next.error) else Ok((next.value, spent.value))
      else Ok((g, spent.value))
  }
}
