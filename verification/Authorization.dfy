/** The authority records of crates/core/src/authorization.rs: principals, grants, leases. */
module Authorization {
  import opened Prelude

  type Capability = string

  datatype CapabilityProfile = Inspect | Design | Manufacturing | Custom(capabilities: set<Capability>)
  {
    function EffectiveCapabilities(): (r: set<Capability>) {
      var inspect := {"project.read", "schematic.read", "pcb.read", "validation.run",
                      "erc.run", "drc.run", "workspace.read"};
      var design := inspect + {"schematic.write", "pcb.write", "project.write"};
      match this
      case Inspect => inspect
      case Design => design
      case Manufacturing => design + {"manufacturing.read", "manufacturing.export"}
      case Custom(capabilities) => capabilities
    }
  }

  /** What each profile adds: inspection writes and exports nothing, design adds exactly the three writes,
      manufacturing exactly its two, and a custom profile is exactly its list. */
  lemma ProfilesNest(capabilities: set<Capability>)
    ensures var inspect, design := Inspect.EffectiveCapabilities(), Design.EffectiveCapabilities();
            var manufacturing := Manufacturing.EffectiveCapabilities();
            && inspect !! {"schematic.write", "pcb.write", "project.write", "manufacturing.read", "manufacturing.export"}
            && design == inspect + {"schematic.write", "pcb.write", "project.write"}
            && manufacturing == design + {"manufacturing.read", "manufacturing.export"} && "manufacturing.export" !in design
    ensures Custom(capabilities).EffectiveCapabilities() == capabilities
  {
  }

  datatype VerifiedPrincipal = VerifiedPrincipal(
    issuer: string, subject: string, accountOrTenant: Option<string>, clientOrAgent: Option<string>,
    authenticationStrength: string, transportBinding: string)
  {
    predicate HasRequiredBindingFields() {
      !Blank(issuer) && !Blank(subject) && !Blank(authenticationStrength) && !Blank(transportBinding)
    }
  }

  datatype Assurance = Unverified | Verified

  datatype Principal = Principal(name: string, assurance: Assurance, verified: Option<VerifiedPrincipal>)
  {
    predicate AcceptsTransportPrincipal(current: Option<VerifiedPrincipal>) {
      match assurance
      case Unverified => verified.None?
      case Verified =>
        && verified.Some? && current.Some?
        && verified.value.HasRequiredBindingFields()
        && current.value.HasRequiredBindingFields()
        && verified.value == current.value
    }
  }

  function PrincipalFor(name: string, actor: Option<VerifiedPrincipal>): (r: Principal) {
    Principal(name, if actor.Some? then Verified else Unverified, actor)
  }

  datatype GrantKind = Standing | OneShot

  datatype Status = PendingApproval | Active | Suspended | Expired | Revoked | Consumed
  {
    predicate Terminal() { Expired? || Revoked? || Consumed? }
  }

  datatype AccessGrant = AccessGrant(
    grantId: Id, subject: Id, device: Id, principal: Principal,
    workspaces: set<Id>, profile: CapabilityProfile, capabilities: set<Capability>,
    taskScope: string, kind: GrantKind,
    issuedAt: Time, approvedAt: Option<Time>, expiresAt: Time,
    revokedAt: Option<Time>, revocationReason: Option<string>, consumedAt: Option<Time>,
    issuedLease: Option<Id>, status: Status, migratedFrom: Option<Id>)
  {
    predicate ExpiredAt(now: Time) { now >= expiresAt }

    predicate UsableAt(now: Time) { status == Active && !ExpiredAt(now) }

    predicate Live() { !status.Terminal() }

    predicate MayIssueAnotherLease() { kind == Standing || issuedLease.None? }
  }

  datatype GrantRequest = GrantRequest(
    subject: Id, device: Id, principal: Principal, workspaces: set<Id>,
    profile: CapabilityProfile, taskScope: string, kind: GrantKind, lifetime: int)

  // A freshly recorded remote request: pending, so it carries no authority.
  function Requested(request: GrantRequest, grantId: Id, now: Time): (g: AccessGrant)
    ensures forall t :: !g.UsableAt(t)
    ensures g.Live() && g.MayIssueAnotherLease()
  {
    AccessGrant(
      grantId, request.subject, request.device, request.principal, request.workspaces, request.profile,
      request.profile.EffectiveCapabilities(), request.taskScope, request.kind,
      now, None, now + request.lifetime, None, None, None, None, PendingApproval, None)
  }

  // What no event of the grant machine may change.
  ghost predicate SameTerms(a: AccessGrant, b: AccessGrant) {
    && a.grantId == b.grantId && a.subject == b.subject && a.device == b.device
    && a.principal == b.principal && a.workspaces == b.workspaces && a.profile == b.profile
    && a.capabilities == b.capabilities && a.taskScope == b.taskScope && a.kind == b.kind
    && a.issuedAt == b.issuedAt && a.expiresAt == b.expiresAt && a.migratedFrom == b.migratedFrom
  }

  datatype Lease = Lease(
    leaseId: Id, grantId: Id, subject: Id, device: Id, principal: Principal,
    workspaces: set<Id>, capabilities: set<Capability>, taskScope: string,
    issuedAt: Time, expiresAt: Time, consumedAt: Option<Time>, consumedBy: Option<Id>)
  {
    predicate ValidAt(now: Time) { consumedAt.None? && now < expiresAt }
  }

  datatype LeaseRequest = LeaseRequest(workspaces: set<Id>, capabilities: set<Capability>, lifetime: int)

  datatype AuthorizationError =
    | GrantNotApproved | GrantRevoked | GrantExpired | GrantConsumed | ForeignGrant
    | DeviceBindingMismatch | PrincipalMismatch | WorkspaceNotGranted | CapabilityNotGranted
    | LeaseOutlivesGrant | OneShotLeaseAlreadyIssued | LeaseAlreadyConsumed | LeaseExpired
    | NonPositiveLifetime | EmptyScope

  function GrantStateError(grant: AccessGrant, now: Time): (r: AuthorizationError) {
    match grant.status
    case Revoked => GrantRevoked
    case Consumed => GrantConsumed
    case Expired => GrantExpired
    case _ => if grant.ExpiredAt(now) then GrantExpired else GrantNotApproved
  }

  function IssuedFor(grant: AccessGrant, request: LeaseRequest, leaseId: Id, now: Time)
    : (r: Result<Lease, AuthorizationError>)
  {
    if request.lifetime <= 0 then Err(NonPositiveLifetime)
    else if request.workspaces == {} then Err(EmptyScope)
    else if !grant.UsableAt(now) then Err(GrantStateError(grant, now))
    else if !grant.MayIssueAnotherLease() then Err(OneShotLeaseAlreadyIssued)
    else if !(request.workspaces <= grant.workspaces) then Err(WorkspaceNotGranted)
    else if !(request.capabilities <= grant.capabilities) then Err(CapabilityNotGranted)
    else
      var end := now + request.lifetime;
      Ok(Lease(
           leaseId, grant.grantId, grant.subject, grant.device, grant.principal,
           request.workspaces, request.capabilities, grant.taskScope,
           now, if end <= grant.expiresAt then end else grant.expiresAt, None, None))
  }

  function ValidateAgainst(lease: Lease, grant: AccessGrant, now: Time): (r: Option<AuthorizationError>) {
    if lease.grantId != grant.grantId then Some(ForeignGrant)
    else if !grant.UsableAt(now) then Some(GrantStateError(grant, now))
    else if lease.device != grant.device then Some(DeviceBindingMismatch)
    else if lease.principal != grant.principal then Some(PrincipalMismatch)
    else if lease.expiresAt > grant.expiresAt then Some(LeaseOutlivesGrant)
    else if !(lease.workspaces <= grant.workspaces) then Some(WorkspaceNotGranted)
    else if !(lease.capabilities <= grant.capabilities) then Some(CapabilityNotGranted)
    else if lease.consumedAt.Some? then Some(LeaseAlreadyConsumed)
    else if !lease.ValidAt(now) then Some(LeaseExpired)
    else None
  }

  function ConsumedBy(lease: Lease, operation: Id, now: Time): (r: Result<Lease, AuthorizationError>) {
    if lease.consumedAt.Some? then Err(LeaseAlreadyConsumed)
    else if !lease.ValidAt(now) then Err(LeaseExpired)
    else Ok(lease.(consumedAt := Some(now), consumedBy := Some(operation)))
  }

  // The transport-era subject record of crates/core/src/session.rs.
  datatype SessionStatus =
    | Unpaired | Paired | Disconnected | Connected
    | SessionPending | SessionActive | SessionSuspended | SessionExpired | SessionRevoked

  datatype Session = Session(
    sessionId: Id, device: Id, remotePrincipal: string, workspaces: set<Id>,
    profile: CapabilityProfile, capabilities: set<Capability>, taskScope: string,
    issuedAt: Time, approvedAt: Option<Time>, expiresAt: Time, status: SessionStatus)

  datatype LegacyError = ActiveWithoutApproval | NoWorkspace | LegacyNonPositiveLifetime

  function LegacyStatus(status: SessionStatus): (r: Option<Status>) {
    match status
    case SessionPending => Some(PendingApproval)
    case SessionActive => Some(Active)
    case SessionSuspended => Some(Suspended)
    case SessionExpired => Some(Expired)
    case SessionRevoked => Some(Revoked)
    case _ => None
  }

  // The one adapter from a session row to a grant. The grant id is derived from the session id.
  function GrantFromLegacySession(session: Session): (r: Result<Option<AccessGrant>, LegacyError>)
    ensures r.Ok? && r.value.Some? ==>
              && r.value.value.grantId == r.value.value.subject == session.sessionId
              && r.value.value.migratedFrom == Some(session.sessionId)
              && LegacyStatus(session.status) == Some(r.value.value.status)
              && (r.value.value.status.Active? ==> r.value.value.approvedAt.Some?)
  {
    var status := LegacyStatus(session.status);
    if status.None? then Ok(None)
    else if session.workspaces == {} then Err(NoWorkspace)
    else if session.expiresAt <= session.issuedAt then Err(LegacyNonPositiveLifetime)
    else if status.value.Active? && session.approvedAt.None? then Err(ActiveWithoutApproval)
    else
      Ok(Some(AccessGrant(
        session.sessionId, session.sessionId, session.device,
        PrincipalFor(session.remotePrincipal, None), session.workspaces, session.profile,
        session.capabilities, session.taskScope, Standing,
        session.issuedAt, session.approvedAt, session.expiresAt, None,
        if status.value.Revoked? then Some("revoked before the authorization migration") else None,
        None, None, status.value, Some(session.sessionId))))
  }

  // A row of a status that carries authority.
  predicate Authoritative(status: SessionStatus) {
    status.SessionPending? || status.SessionActive? || status.SessionSuspended? || status.SessionExpired? || status.SessionRevoked?
  }

  /** A row yields a grant exactly when its status carries authority, it names a workspace, has a positive
      lifetime and, if active, an approval time; and the grant then has the row's own terms, no more: the
      same device, workspaces, capabilities, scope and instants, and an unverified principal. */
  lemma LegacyGrantIsTheRow(session: Session)
    ensures var r := GrantFromLegacySession(session);
            && (r.Ok? && r.value.Some? <==>
                && Authoritative(session.status) && session.workspaces != {} && session.issuedAt < session.expiresAt
                && (session.status.SessionActive? ==> session.approvedAt.Some?))
            && (r == Ok(None) <==> !Authoritative(session.status))
            && (r.Ok? && r.value.Some? ==>
                  var g := r.value.value;
                  && g.device == session.device && g.workspaces == session.workspaces && g.profile == session.profile
                  && g.capabilities == session.capabilities && g.taskScope == session.taskScope && g.kind == Standing
                  && g.issuedAt == session.issuedAt && g.approvedAt == session.approvedAt && g.expiresAt == session.expiresAt
                  && g.principal.name == session.remotePrincipal && g.principal.assurance == Unverified
                  && g.principal.verified == None && g.issuedLease == None && g.consumedAt == None
                  && (g.status.PendingApproval? <==> session.status.SessionPending?)
                  && (g.status.Active? <==> session.status.SessionActive?)
                  && (g.status.Suspended? <==> session.status.SessionSuspended?)
                  && (g.status.Expired? <==> session.status.SessionExpired?)
                  && (g.status.Revoked? <==> session.status.SessionRevoked?))
  {
  }
}
