/** The transport-era session row, its state machine (crates/sessions/src/state_machine.rs), and how
    local decisions keep it in step with the grant that answers it. */
module Sessions {
  import opened Prelude
  import opened Authorization
  import GM = GrantMachine

  datatype SessionEvent =
    | Pair | TransportConnected | TransportDisconnected | RequestAccess
    | Approve | Deny(reason: string) | Pause | Resume | CheckExpiry | Revoke

  datatype SessionError = TerminalState(current: SessionStatus) | InvalidTransition(from: SessionStatus)

  function NextStatus(s: Session, event: SessionEvent, now: Time): (r: Option<SessionStatus>) {
    match (s.status, event)
    case (Unpaired, Pair) => Some(Paired)
    case (Paired, TransportConnected) => Some(Connected)
    case (Disconnected, TransportConnected) => Some(Connected)
    case (Connected, TransportDisconnected) => Some(Disconnected)
    case (Connected, RequestAccess) => Some(SessionPending)
    case (SessionPending, Approve) => Some(SessionActive)
    case (SessionPending, Deny(_)) => Some(SessionRevoked)
    case (SessionActive, Pause) => Some(SessionSuspended)
    case (SessionSuspended, Resume) => Some(SessionActive)
    case (SessionActive, CheckExpiry) => Some(if now >= s.expiresAt then SessionExpired else SessionActive)
    case _ => None
  }

  predicate SessionTerminal(status: SessionStatus) {
    status.SessionRevoked? || status.SessionExpired?
  }

  function Transition(s: Session, event: SessionEvent, now: Time): (r: Result<Session, SessionError>)
    ensures r.Ok? ==> r.value.sessionId == s.sessionId && r.value.issuedAt == s.issuedAt
    ensures SessionTerminal(s.status) ==> r.Err?
  {
    if SessionTerminal(s.status) then Err(TerminalState(s.status))
    else if event.Revoke? then Ok(s.(status := SessionRevoked))
    else
      var next := NextStatus(s, event, now);
      if next.None? then Err(InvalidTransition(s.status))
      else Ok(s.(status := next.value, approvedAt := if event.Approve? then Some(now) else s.approvedAt))
  }

  // The request path: a fresh row is paired, connected and asks for access in one go.
  function RequestedSession(
    sessionId: Id, device: Id, name: string, workspaces: set<Id>, profile: CapabilityProfile,
    taskScope: string, lifetime: int, now: Time): (r: Session)
  {
    var unpaired := Session(sessionId, device, name, workspaces, profile, profile.EffectiveCapabilities(),
                            taskScope, now, None, now + lifetime, Unpaired);
    var paired := Transition(unpaired, Pair, now).value;
    var connected := Transition(paired, TransportConnected, now).value;
    Transition(connected, RequestAccess, now).value
  }

  // Facts about a pipe have no authorization meaning, and neither has a session expiry check.
  function AuthorizationEventFor(event: SessionEvent): (r: Option<GM.AuthorizationEvent>) {
    match event
    case Approve => Some(GM.Approve)
    case Deny(reason) => Some(GM.Deny(reason))
    case Pause => Some(GM.Suspend)
    case Resume => Some(GM.Resume)
    case Revoke => Some(GM.Revoke(None))
    case _ => None
  }

  datatype Pairing = Pairing(session: Session, grant: AccessGrant)

  // One local decision: the grant first, then the row, whose refusal is ignored.
  function Decide(p: Pairing, event: SessionEvent, now: Time): (r: Pairing) {
    var mapped := AuthorizationEventFor(event);
    if mapped.None? then p
    else
      var next := GM.Transition(p.grant, mapped.value, now);
      if next.Err? then p
      else
        var row := Transition(p.session, event, now);
        Pairing(if row.Ok? then row.value else p.session, next.value)
  }

  function DecideAll(p: Pairing, decisions: seq<(SessionEvent, Time)>): (r: Pairing)
    decreases |decisions|
  {
    if decisions == [] then p else DecideAll(Decide(p, decisions[0].0, decisions[0].1), decisions[1..])
  }

  ghost predicate Mirrored(p: Pairing) {
    && LegacyStatus(p.session.status) == Some(p.grant.status)
    && p.session.workspaces != {}
    && p.session.issuedAt < p.session.expiresAt
    && (p.session.status.SessionActive? || p.session.status.SessionSuspended? ==> p.session.approvedAt.Some?)
  }

  lemma DecisionKeepsMirror(p: Pairing, event: SessionEvent, now: Time)
    requires Mirrored(p)
    ensures Mirrored(Decide(p, event, now))
    ensures AuthorizationEventFor(event).Some? ==>
              (GM.Transition(p.grant, AuthorizationEventFor(event).value, now).Ok? <==> Transition(p.session, event, now).Ok?)
  {
  }

  /** From a session request, any sequence of local decisions at any instants leaves row and grant in
      matching states, accepts the same events on both, and the legacy adapter read on the row yields
      the grant's status. */
  lemma {:induction false} MirrorHolds(p: Pairing, decisions: seq<(SessionEvent, Time)>)
    requires Mirrored(p)
    ensures var q := DecideAll(p, decisions);
            && Mirrored(q)
            && GrantFromLegacySession(q.session).Ok?
            && GrantFromLegacySession(q.session).value.Some?
            && GrantFromLegacySession(q.session).value.value.status == q.grant.status
            && (forall event: SessionEvent, now: Time | AuthorizationEventFor(event).Some? ::
                  GM.Transition(q.grant, AuthorizationEventFor(event).value, now).Ok? <==>
                  Transition(q.session, event, now).Ok?)
    decreases |decisions|
  {
    if decisions == [] {
      forall event: SessionEvent, now: Time | AuthorizationEventFor(event).Some?
        ensures GM.Transition(p.grant, AuthorizationEventFor(event).value, now).Ok? <==> Transition(p.session, event, now).Ok?
      {
        DecisionKeepsMirror(p, event, now);
      }
    } else {
      DecisionKeepsMirror(p, decisions[0].0, decisions[0].1);
      MirrorHolds(Decide(p, decisions[0].0, decisions[0].1), decisions[1..]);
    }
  }

  lemma RequestStartsMirrored(
    sessionId: Id, grantId: Id, device: Id, name: string, actor: Option<VerifiedPrincipal>, workspaces: set<Id>,
    profile: CapabilityProfile, taskScope: string, lifetime: int, sessionNow: Time, grantNow: Time)
    requires workspaces != {} && lifetime > 0
    ensures Mirrored(Pairing(
                       RequestedSession(sessionId, device, name, workspaces, profile, taskScope, lifetime, sessionNow),
                       Requested(GrantRequest(sessionId, device, PrincipalFor(name, actor), workspaces, profile, taskScope,
                                              Standing, lifetime), grantId, grantNow)))
  {
  }
}
