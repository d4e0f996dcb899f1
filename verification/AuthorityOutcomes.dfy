/** What access requests and local decisions bring about in the grant and session tables, field by field. */
module AuthorityOutcomes {
  import opened Prelude
  import opened Authorization
  import opened GrantStore
  import opened Daemon
  import opened AuthorityTables
  import opened Revocation
  import opened Provenance
  import GM = GrantMachine
  import S = Sessions

  // Requests ---------------------------------------------------------------------------------------------------

  // From this device, for a known workspace, with a complete actor if there is one.
  ghost predicate MayAsk(env: Env, s: State, access: AccessRequest) {
    && access.claimedDevice.Some? && access.claimedDevice == env.device
    && access.workspaceId in s.workspaces
    && (access.actor.Some? ==>
          && HasText(access.actor.value.issuer) && HasText(access.actor.value.subject)
          && HasText(access.actor.value.authenticationStrength) && HasText(access.actor.value.transportBinding))
  }

  // The grant was asked for in the same words.
  ghost predicate AskedAlike(g: AccessGrant, access: AccessRequest)
    requires access.claimedDevice.Some?
  {
    && g.device == access.claimedDevice.value && g.workspaces == {access.workspaceId}
    && g.profile == access.profile && g.taskScope == access.taskScope
    && g.principal.name == access.name && g.principal.verified == access.actor
    && (g.principal.assurance.Verified? <==> access.actor.Some?)
  }

  ghost predicate AlreadyLive(s: State, access: AccessRequest)
    requires access.claimedDevice.Some?
  {
    exists id | id in s.grants ::
      && AskedAlike(s.grants[id], access)
      && !s.grants[id].status.Expired? && !s.grants[id].status.Revoked? && !s.grants[id].status.Consumed?
  }

  // A pending grant with nothing but what was asked for, for as long as the lifetime rule allows.
  ghost predicate GrantsRequest(env: Env, g: AccessGrant, access: AccessRequest, subject: Id, grantId: Id, now: Time)
    requires env.Valid() && access.claimedDevice.Some?
  {
    && AskedAlike(g, access) && g.grantId == grantId && g.subject == subject
    && g.capabilities == access.profile.EffectiveCapabilities() && g.kind.Standing?
    && g.status.PendingApproval? && g.issuedAt == now && g.migratedFrom.None? && g.issuedLease.None?
    && g.approvedAt.None? && g.revokedAt.None? && g.consumedAt.None? && g.revocationReason.None?
    && g.expiresAt == now + 60 * EffectiveTtl(env.ttl, access.profile, access.ttlMinutes) as int
  }

  ghost predicate RowOfRequest(env: Env, row: Session, access: AccessRequest, subject: Id, now: Time)
    requires env.Valid() && access.claimedDevice.Some?
  {
    && row.sessionId == subject && row.device == access.claimedDevice.value && row.remotePrincipal == access.name
    && row.workspaces == {access.workspaceId} && row.profile == access.profile && row.taskScope == access.taskScope
    && row.capabilities == access.profile.EffectiveCapabilities()
    && row.status.SessionPending? && row.issuedAt == now && row.approvedAt.None?
    && row.expiresAt == now + 60 * EffectiveTtl(env.ttl, access.profile, access.ttlMinutes) as int
  }

  /** The outcome of an access request with unused ids and both writes confirmed: if it may be asked and
      nothing alike is live, exactly one pending grant and one pending row are added, holding what was asked;
      otherwise nothing changes. */
  lemma RequestOutcome(env: Env, s: State, access: AccessRequest, subject: Id, grantId: Id, rowAt: Time, at: Time)
    requires env.Valid() && s.WellKeyed() && s.request.NoRequest? && UnusedIds(s, subject, grantId)
    ensures var t := RequestAccess(env, s, access, subject, grantId, rowAt, at, Stored, Stored);
            if MayAsk(env, s, access) && !AlreadyLive(s, access) then
              && t.grants.Keys == s.grants.Keys + {grantId} && t.sessions.Keys == s.sessions.Keys + {subject}
              && (forall id | id in s.grants :: t.grants[id] == s.grants[id])
              && (forall id | id in s.sessions :: t.sessions[id] == s.sessions[id])
              && GrantsRequest(env, t.grants[grantId], access, subject, grantId, at)
              && RowOfRequest(env, t.sessions[subject], access, subject, rowAt)
            else t == s
  {
    CheckOutcome(env, s, access, subject, grantId, rowAt, at);
    if MayAsk(env, s, access) && !AlreadyLive(s, access) {
      var g, row := RequestedGrant(env, access, subject, grantId, at), RequestedRow(env, access, subject, rowAt);
      RequestFields(env, access, subject, grantId, rowAt, at);
      WritesOutcome(s, g, row);
    }
  }

  lemma CheckOutcome(env: Env, s: State, access: AccessRequest, subject: Id, grantId: Id, rowAt: Time, at: Time)
    requires env.Valid() && s.WellKeyed() && s.request.NoRequest? && UnusedIds(s, subject, grantId)
    ensures CheckRequest(env, s, access, subject, grantId, rowAt, at) ==
            if MayAsk(env, s, access) && !AlreadyLive(s, access)
            then s.(request := Checked(RequestedGrant(env, access, subject, grantId, at), RequestedRow(env, access, subject, rowAt)))
            else s
  {
    MayAskMeans(env, s, access);
    if access.claimedDevice.Some? {
      forall id | id in s.grants
        ensures SameRequest(s.grants[id], RequestedGrant(env, access, subject, grantId, at)) <==> AskedAlike(s.grants[id], access)
      {
        AlikeMeans(env, s.grants[id], access, subject, grantId, at);
      }
    }
  }

  lemma MayAskMeans(env: Env, s: State, access: AccessRequest)
    ensures Admissible(env, s, access) <==> MayAsk(env, s, access)
  {
  }

  lemma AlikeMeans(env: Env, g: AccessGrant, access: AccessRequest, subject: Id, grantId: Id, at: Time)
    requires env.Valid() && access.claimedDevice.Some?
    ensures SameRequest(g, RequestedGrant(env, access, subject, grantId, at)) <==> AskedAlike(g, access)
  {
  }

  lemma RequestFields(env: Env, access: AccessRequest, subject: Id, grantId: Id, rowAt: Time, at: Time)
    requires env.Valid() && access.claimedDevice.Some?
    ensures GrantsRequest(env, RequestedGrant(env, access, subject, grantId, at), access, subject, grantId, at)
    ensures RowOfRequest(env, RequestedRow(env, access, subject, rowAt), access, subject, rowAt)
  {
  }

  lemma WritesOutcome(s: State, g: AccessGrant, row: Session)
    requires g.grantId !in s.grants && s.request.NoRequest?
    ensures GrantWrite(RowWrite(s.(request := Checked(g, row)), Stored), Stored) ==
            s.(grants := s.grants[g.grantId := g], sessions := s.sessions[row.sessionId := row])
  {
  }

  // Decisions -------------------------------------------------------------------------------------------------------

  // The state a decision leads to, if it applies in this one.
  function Leads(status: Status, decision: S.SessionEvent): (r: Option<Status>) {
    match decision
    case Approve => if status == PendingApproval then Some(Active) else None
    case Deny(_) => if status == PendingApproval then Some(Revoked) else None
    case Pause => if status == Active then Some(Suspended) else None
    case Resume => if status == Suspended then Some(Active) else None
    case Revoke => if status == PendingApproval || status == Active || status == Suspended then Some(Revoked) else None
    case _ => None
  }

  // Beside the grant: the queue is to be swept exactly after a revocation, and a row that was in step with
  // the grant stays in step; rows of other subjects are left alone.
  ghost predicate FollowsDecision(s: State, t: State, h: Id, subject: Id, before: Status, after: Status) {
    && t.handlers == (if after.Revoked? then s.handlers[h := Invalidating(subject)] else s.handlers)
    && t.sessions.Keys == s.sessions.Keys
    && (forall other | other in s.sessions && other != subject :: t.sessions[other] == s.sessions[other])
    && (subject in s.sessions && InStep(s.sessions[subject].status, before) ==> InStep(t.sessions[subject].status, after))
    && t.pending == s.pending && t.calls == s.calls && t.audit == s.audit
  }

  predicate InStep(row: SessionStatus, status: Status) {
    match status
    case PendingApproval => row.SessionPending?
    case Active => row.SessionActive?
    case Suspended => row.SessionSuspended?
    case Expired => row.SessionExpired?
    case Revoked => row.SessionRevoked?
    case Consumed => false
  }

  lemma SaveFollows(s: State, h: Id, subject: Id, g: AccessGrant, next: AccessGrant, decision: S.SessionEvent, now: Time)
    requires s.WellKeyed() && Leads(g.status, decision) == Some(next.status)
    ensures FollowsDecision(s, SaveDecision(s, h, subject, next, MirroredRow(s.sessions, subject, decision, now), true), h, subject,
                            g.status, next.status)
  {
  }

  /** The outcome of a local decision: on a subject whose answering grant is in a state the decision applies
      to, that grant goes on answering, on the same terms, in the new state and stamped with the instant; if
      the mirror is written the row keeps step and a revocation goes on to sweep the queue; otherwise nothing
      changes. */
  lemma DecisionOutcome(s: State, h: Id, subject: Id, decision: S.SessionEvent, mirrored: bool, now: Time)
    requires s.WellKeyed() && IdsApart(s) && h !in s.handlers
    ensures var t := DecideOn(s, h, subject, decision, mirrored, now);
            var grant := Authority(s.grants, s.sessions, subject);
            if grant.Some? && Leads(grant.value.status, decision).Some? then
              var after := Authority(t.grants, t.sessions, subject);
              && after.Some? && after.value.status == Leads(grant.value.status, decision).value
              && SameTerms(grant.value, after.value)
              && (decision.Approve? ==> after.value.approvedAt == Some(now))
              && (decision.Revoke? || decision.Deny? ==> after.value.revokedAt == Some(now))
              && (!decision.Approve? ==> after.value.approvedAt == grant.value.approvedAt)
              && (mirrored ==> FollowsDecision(s, t, h, subject, grant.value.status, after.value.status))
            else t == s
  {
    var grant, next := DecideOutcome(s, h, subject, decision, mirrored, now);
    if grant.Some? {
      LeadsMeans(grant.value, decision, now);
      if next.Some? {
        UpsertAnswers(s, subject, grant.value, next.value);
        SaveTables(s, h, subject, next.value, MirroredRow(s.sessions, subject, decision, now), mirrored);
        if mirrored { SaveFollows(s, h, subject, grant.value, next.value, decision, now); }
      }
    }
  }

  lemma LeadsMeans(g: AccessGrant, decision: S.SessionEvent, now: Time)
    ensures var event := S.AuthorizationEventFor(decision);
            && (event.Some? && GM.Transition(g, event.value, now).Ok? <==> Leads(g.status, decision).Some?)
            && (event.Some? && GM.Transition(g, event.value, now).Ok? ==>
                  var next := GM.Transition(g, event.value, now).value;
                  && next.status == Leads(g.status, decision).value
                  && (decision.Approve? ==> next.approvedAt == Some(now))
                  && (decision.Revoke? || decision.Deny? ==> next.revokedAt == Some(now))
                  && (!decision.Approve? ==> next.approvedAt == g.approvedAt))
  {
  }
}
