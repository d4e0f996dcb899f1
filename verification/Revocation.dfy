/** What a revocation is worth: no evaluation for the subject permits anything afterwards, and when a
    restart can undo that. */
module Revocation {
  import opened Prelude
  import opened Authorization
  import opened Policy
  import opened GrantStore
  import opened Daemon
  import opened PipelineSafety
  import opened PipelineTheorems
  import opened PolicyInPipeline
  import opened AuthorityTables
  import opened Refusals
  import GM = GrantMachine
  import S = Sessions

  // The grant that answers the subject is in a terminal state.
  ghost predicate Dead(s: State, subject: Id)
    requires s.WellKeyed()
  {
    Persisted(s.grants, subject).Some? && Persisted(s.grants, subject).value.status.Terminal()
  }

  ghost predicate RowClosed(s: State, subject: Id) {
    subject in s.sessions ==> S.SessionTerminal(s.sessions[subject].status)
  }

  // A grant of the subject is about to be written by a request that already saved the subject's row.
  predicate AboutToWrite(s: State, subject: Id) {
    s.request.RowSaved? && s.request.grant.subject == subject
  }

  // Dead now, not to be outranked by a grant about to be written, and if restarts are to be survived, dead
  // in the row that a restart migrates as well.
  ghost predicate Gone(s: State, subject: Id, restarts: bool)
    requires s.WellKeyed()
  {
    && Dead(s, subject) && IdsApart(s) && (restarts ==> RowClosed(s, subject))
    && (AboutToWrite(s, subject) ==> Precedes(s.request.grant, Persisted(s.grants, subject).value))
  }

  lemma DecideKeepsGone(
    s: State, h: Id, subject: Id, decision: S.SessionEvent, mirrored: bool, now: Time, gone: Id, restarts: bool)
    requires s.WellKeyed() && Gone(s, gone, restarts)
    ensures Gone(DecideOn(s, h, subject, decision, mirrored, now), gone, restarts)
  {
    var t := DecideOn(s, h, subject, decision, mirrored, now);
    if subject == gone {
      assert t == s;
    } else {
      DecideIsLocal(s, h, subject, decision, mirrored, now, gone);
      SameAnswer(s.grants, t.grants, gone);
    }
  }

  lemma RowWriteKeepsGone(s: State, w: Write, gone: Id, restarts: bool)
    requires s.WellKeyed() && Gone(s, gone, restarts)
    ensures Gone(RowWrite(s, w), gone, restarts)
  {
    if s.request.Checked? { assert s.request.grant.subject != gone; }
    RowWriteKeepsApart(s, w);
  }

  lemma GrantWriteKeepsGone(s: State, w: Write, gone: Id, restarts: bool)
    requires s.WellKeyed() && Gone(s, gone, restarts)
    ensures Gone(GrantWrite(s, w), gone, restarts)
  {
    GrantWriteKeepsApart(s, w);
    if s.request.RowSaved? && !w.Lost? {
      var g := s.request.grant;
      assert Upsert(s.grants, g) == s.grants[g.grantId := g];
      if g.subject == gone { AnswerOfTwo(s.grants, g, gone); } else { SameAnswer(s.grants, s.grants[g.grantId := g], gone); }
    }
  }

  lemma CheckKeepsGone(
    env: Env, s: State, access: AccessRequest, sessionId: Id, grantId: Id, sessionNow: Time, now: Time, gone: Id, restarts: bool)
    requires env.Valid() && s.WellKeyed() && Gone(s, gone, restarts)
    ensures Gone(CheckRequest(env, s, access, sessionId, grantId, sessionNow, now), gone, restarts)
  {
    CheckKeepsApart(env, s, access, sessionId, grantId, sessionNow, now);
  }

  lemma RequestKeepsGone(env: Env, s: State, event: Event, gone: Id, restarts: bool)
    requires env.Valid() && s.WellKeyed() && Gone(s, gone, restarts) && OfRequest(event)
    ensures Gone(Apply(env, s, event), gone, restarts)
  {
    match event
    case AccessRequested(access, sessionId, grantId, sessionNow, now) =>
      CheckKeepsGone(env, s, access, sessionId, grantId, sessionNow, now, gone, restarts);
    case SaveRequestRow(w) => RowWriteKeepsGone(s, w, gone, restarts);
    case SaveRequestGrant(w) => GrantWriteKeepsGone(s, w, gone, restarts);
  }

  // Migration would bring back authority: the row is still live, has no grant of its own yet, and would
  // outrank the terminal grant in the lookup order.
  ghost predicate Reopens(s: State, subject: Id)
    requires s.WellKeyed() && Dead(s, subject)
  {
    && subject in s.sessions && subject !in s.grants
    && var derived := Derived(s.sessions[subject]);
       && derived.Some? && derived.value.Live()
       && Precedes(Persisted(s.grants, subject).value, derived.value)
  }

  /** A restart keeps a revocation exactly when the stored session row does not outrank it as a live grant. */
  lemma RestartKeepsRevocationIff(s: State, subject: Id)
    requires s.WellKeyed() && Dead(s, subject)
    ensures Dead(Reboot(s), subject) <==> !Reopens(s, subject)
  {
    RebootAdds(s, subject);
    var derived := if subject in s.sessions && subject !in s.grants then Derived(s.sessions[subject]) else None;
    if derived.Some? {
      RestartAnswer(s.grants, derived.value, Reboot(s).grants, subject);
    } else {
      SameAnswer(s.grants, Reboot(s).grants, subject);
    }
  }

  lemma ClosedRowStaysClosed(s: State, subject: Id)
    requires s.WellKeyed() && Dead(s, subject) && RowClosed(s, subject)
    ensures !Reopens(s, subject)
  {
  }

  lemma RestartAnswer(grants: Grants, derived: AccessGrant, after: Grants, subject: Id)
    requires Keyed(grants) && Keyed(after) && HasGrant(grants, subject)
    requires derived.grantId == derived.subject == subject && subject !in grants
    requires SameFor(grants[subject := derived], after, subject)
    ensures var answer := Persisted(grants, subject).value;
            Persisted(after, subject) == Some(if Precedes(answer, derived) then derived else answer)
  {
    AnswerOfTwo(grants, derived, subject);
    SameAnswer(grants[subject := derived], after, subject);
  }

  // One subject with one grant and one row.
  ghost predicate Holds(s: State, subject: Id, grant: AccessGrant, row: Session) {
    && s.grants == map[grant.grantId := grant] && grant.subject == subject && grant.grantId != subject
    && s.sessions == map[subject := row] && row.sessionId == subject
  }

  lemma HeldAnswer(s: State, subject: Id, grant: AccessGrant, row: Session)
    requires Holds(s, subject, grant, row)
    ensures s.WellKeyed() && (s.request.NoRequest? ==> IdsApart(s)) && Persisted(s.grants, subject) == Some(grant)
  {
    assert IsAnswer(s.grants, subject, grant.grantId);
  }

  lemma SaveHeld(s: State, h: Id, subject: Id, grant: AccessGrant, row: Session, next: AccessGrant, row': Session, mirrored: bool)
    requires Holds(s, subject, grant, row) && SameTerms(grant, next) && row'.sessionId == subject
    ensures Holds(SaveDecision(s, h, subject, next, Some(row'), mirrored), subject, next, if mirrored then row' else row)
  {
    assert s.grants[next.grantId := next] == map[next.grantId := next];
    assert s.sessions[subject := row'] == map[subject := row'];
  }

  lemma ApproveHeld(s: State, h: Id, subject: Id, grant: AccessGrant, row: Session, now: Time)
    requires Holds(s, subject, grant, row) && h !in s.handlers && grant.status.PendingApproval? && row.status.SessionPending?
    ensures s.WellKeyed()
    ensures var t := DecideOn(s, h, subject, S.Approve, true, now);
            && Holds(t, subject, grant.(status := Active, approvedAt := Some(now)),
                     row.(status := SessionActive, approvedAt := Some(now)))
            && t.handlers == s.handlers
  {
    HeldAnswer(s, subject, grant, row);
    assert GM.Transition(grant, GM.Approve, now) == Ok(grant.(status := Active, approvedAt := Some(now)));
    assert S.Transition(row, S.Approve, now) == Ok(row.(status := SessionActive, approvedAt := Some(now)));
    SaveHeld(s, h, subject, grant, row, grant.(status := Active, approvedAt := Some(now)),
             row.(status := SessionActive, approvedAt := Some(now)), true);
  }

  lemma RevokeHeld(s: State, h: Id, subject: Id, grant: AccessGrant, row: Session, now: Time)
    requires Holds(s, subject, grant, row) && h !in s.handlers && grant.status.Active? && row.status.SessionActive?
    ensures s.WellKeyed()
    ensures Holds(DecideOn(s, h, subject, S.Revoke, false, now), subject,
                  grant.(status := Revoked, revokedAt := Some(now), revocationReason := None), row)
  {
    HeldAnswer(s, subject, grant, row);
    assert GM.Transition(grant, GM.Revoke(None), now) ==
           Ok(grant.(status := Revoked, revokedAt := Some(now), revocationReason := None));
    assert S.Transition(row, S.Revoke, now) == Ok(row.(status := SessionRevoked));
    SaveHeld(s, h, subject, grant, row, grant.(status := Revoked, revokedAt := Some(now), revocationReason := None),
             row.(status := SessionRevoked), false);
  }

  lemma RestartReopens(s: State, subject: Id, grant: AccessGrant, row: Session)
    requires Holds(s, subject, grant, row) && grant.status.Revoked? && row.status.SessionActive?
    requires row.approvedAt.Some? && row.workspaces != {} && row.issuedAt < row.expiresAt
    requires row.issuedAt == grant.issuedAt && grant.grantId < subject
    ensures s.WellKeyed() && Dead(s, subject) && Reopens(s, subject)
    ensures var g := Authority(Reboot(s).grants, Reboot(s).sessions, subject);
            g.Some? && g.value.status.Active? && g.value.expiresAt == row.expiresAt
  {
    HeldAnswer(s, subject, grant, row);
    RebootAdds(s, subject);
    RestartAnswer(s.grants, Derived(row).value, Reboot(s).grants, subject);
  }

  /** The losing case is real: on an empty database any request recorded within one instant, under a grant
      id below its session id, then approved, then revoked with the mirror write lost, has usable authority
      again after the next restart, for as long as it was first granted. */
  lemma LostMirrorReopens(
    env: Env, s: State, access: AccessRequest, subject: Id, grantId: Id, h: Id, at: Time, approvedAt: Time, revokedAt: Time)
    requires env.Valid() && Booted(s) && s.grants == map[] && s.sessions == map[]
    requires Admissible(env, s, access) && grantId < subject
    ensures var requested := RequestAccess(env, s, access, subject, grantId, at, at, Stored, Stored);
            var approved := DecideOn(requested, h, subject, S.Approve, true, approvedAt);
            var revoked := DecideOn(approved, h, subject, S.Revoke, false, revokedAt);
            var reopened := Authority(Reboot(revoked).grants, Reboot(revoked).sessions, subject);
            && Dead(revoked, subject)
            && reopened.Some?
            && forall now | now < at + 60 * EffectiveTtl(env.ttl, access.profile, access.ttlMinutes) as int ::
                 reopened.value.UsableAt(now)
  {
    var requested := RequestAccess(env, s, access, subject, grantId, at, at, Stored, Stored);
    RequestHolds(env, s, access, subject, grantId, at);
    ApprovedThenRevoked(requested, h, subject, requested.grants[grantId], requested.sessions[subject], approvedAt, revokedAt);
  }

  lemma RequestHolds(env: Env, s: State, access: AccessRequest, subject: Id, grantId: Id, at: Time)
    requires env.Valid() && Booted(s) && s.grants == map[] && s.sessions == map[]
    requires Admissible(env, s, access) && grantId < subject
    ensures var t := RequestAccess(env, s, access, subject, grantId, at, at, Stored, Stored);
            && grantId in t.grants && subject in t.sessions && t.handlers == map[]
            && var g, row := t.grants[grantId], t.sessions[subject];
               && Holds(t, subject, g, row) && Fresh(g, row) && g.grantId == grantId
               && row.expiresAt == at + 60 * EffectiveTtl(env.ttl, access.profile, access.ttlMinutes) as int
  {
    CheckOnEmpty(env, s, access, subject, grantId, at, at);
    var g, row := RequestedGrant(env, access, subject, grantId, at), RequestedRow(env, access, subject, at);
    WritesOnEmpty(s, g, row);
    assert Fresh(g, row);
  }

  lemma WritesOnEmpty(s: State, g: AccessGrant, row: Session)
    requires s.grants == map[] && s.sessions == map[]
    ensures GrantWrite(RowWrite(s.(request := Checked(g, row)), Stored), Stored) ==
            s.(grants := map[g.grantId := g], sessions := map[row.sessionId := row], request := NoRequest)
  {
  }

  predicate Fresh(g: AccessGrant, row: Session) {
    && g.status.PendingApproval? && row.status.SessionPending? && g.issuedAt == row.issuedAt
    && row.workspaces != {} && row.issuedAt < row.expiresAt
  }

  lemma ApprovedThenRevoked(
    s: State, h: Id, subject: Id, g: AccessGrant, row: Session, approvedAt: Time, revokedAt: Time)
    requires Holds(s, subject, g, row) && Fresh(g, row) && g.grantId < subject && h !in s.handlers
    ensures s.WellKeyed()
    ensures var revoked := DecideOn(DecideOn(s, h, subject, S.Approve, true, approvedAt), h, subject, S.Revoke, false, revokedAt);
            var reopened := Authority(Reboot(revoked).grants, Reboot(revoked).sessions, subject);
            && Dead(revoked, subject)
            && reopened.Some? && reopened.value.status.Active? && reopened.value.expiresAt == row.expiresAt
  {
    ApproveHeld(s, h, subject, g, row, approvedAt);
    var approved := DecideOn(s, h, subject, S.Approve, true, approvedAt);
    var g2 := g.(status := Active, approvedAt := Some(approvedAt));
    var row2 := row.(status := SessionActive, approvedAt := Some(approvedAt));
    RevokeHeld(approved, h, subject, g2, row2, revokedAt);
    RestartReopens(DecideOn(approved, h, subject, S.Revoke, false, revokedAt), subject,
                   g2.(status := Revoked, revokedAt := Some(revokedAt), revocationReason := None), row2);
  }

  lemma RebootKeepsGone(s: State, gone: Id)
    requires s.WellKeyed() && Gone(s, gone, true)
    ensures Gone(Reboot(s), gone, true)
  {
    ClosedRowStaysClosed(s, gone);
    RestartKeepsRevocationIff(s, gone);
    RebootKeepsApart(s);
  }

  lemma StepKeepsGone(env: Env, s: State, event: Event, gone: Id, restarts: bool)
    requires env.Valid() && s.WellKeyed() && Gone(s, gone, restarts) && (event.Restart? ==> restarts)
    ensures Gone(Apply(env, s, event), gone, restarts)
  {
    if !TouchesAuthority(event) {
      OthersKeepTables(env, s, event);
    } else if event.DecideSession? {
      DecideKeepsGone(s, event.h, event.subject, event.decision, event.mirrored, event.now, gone, restarts);
    } else if OfRequest(event) {
      RequestKeepsGone(env, s, event, gone, restarts);
    } else {
      RebootKeepsGone(s, gone);
    }
  }

  lemma {:induction false} RunKeepsGone(env: Env, t: State, after: seq<Event>, gone: Id, restarts: bool)
    requires env.Valid() && t.WellKeyed() && Gone(t, gone, restarts)
    requires restarts || forall i | 0 <= i < |after| :: !after[i].Restart?
    ensures Gone(Run(env, t, after), gone, restarts)
    decreases |after|
  {
    if after != [] {
      var init, last := after[..|after| - 1], after[|after| - 1];
      RunKeepsGone(env, t, init, gone, restarts);
      StepKeepsGone(env, Run(env, t, init), last, gone, restarts);
    }
  }

  lemma GoneShutsOut(env: Env, t: State, seen: iset<Observation>, after: seq<Event>, gone: Id, restarts: bool)
    requires env.Valid() && RefusesUnusable(env) && t.WellKeyed() && Safe(t) && Gone(t, gone, restarts)
    requires Backed(env, seen, t)
    requires restarts || forall i | 0 <= i < |after| :: !after[i].Restart?
    ensures ShutOut(env, t, after, gone)
  {
    forall n | 0 <= n <= |after| ensures Refused(env, Run(env, t, after[..n]), gone) {
      assert forall i | 0 <= i < n :: after[..n][i] == after[i];
      RunKeepsGone(env, t, after[..n], gone, restarts);
      UnusableIsRefused(env, Run(env, t, after[..n]), gone);
    }
    RefusedShutsOut(env, t, seen, after, gone);
  }

  // A decision that is accepted and leaves the answering grant revoked.
  ghost predicate Revokes(s: State, h: Id, subject: Id, decision: S.SessionEvent, now: Time)
    requires s.WellKeyed()
  {
    && h !in s.handlers
    && (decision.Revoke? || decision.Deny?)
    && var grant := Authority(s.grants, s.sessions, subject);
       grant.Some? && GM.Transition(grant.value, S.AuthorizationEventFor(decision).value, now).Ok?
  }

  // The grant about to be written would outrank the one that answers the subject now.
  ghost predicate Outranked(s: State, subject: Id)
    requires s.WellKeyed()
  {
    && AboutToWrite(s, subject)
    && var answer := Authority(s.grants, s.sessions, subject);
       answer.Some? && Precedes(answer.value, s.request.grant)
  }

  lemma UpsertAnswers(s: State, subject: Id, grant: AccessGrant, next: AccessGrant)
    requires s.WellKeyed() && Authority(s.grants, s.sessions, subject) == Some(grant) && SameTerms(grant, next)
    requires OwnedBy(s, subject, next)
    ensures Persisted(Upsert(s.grants, next), subject) == Some(next)
  {
    UpsertIsLocal(s, subject, next);
    if HasGrant(s.grants, subject) {
      assert IsAnswer(s.grants, subject, grant.grantId);
    } else {
      assert next.grantId !in s.grants;
    }
    assert Upsert(s.grants, next)[next.grantId] == next;
    assert IsAnswer(Upsert(s.grants, next), subject, next.grantId);
  }

  lemma SaveKills(s: State, h: Id, subject: Id, grant: AccessGrant, next: AccessGrant, row: Option<Session>, mirrored: bool)
    requires s.WellKeyed() && IdsApart(s) && Authority(s.grants, s.sessions, subject) == Some(grant)
    requires SameTerms(grant, next) && OwnedBy(s, subject, next) && next.status.Revoked?
    requires row.Some? ==> subject in s.sessions && row.value.sessionId == subject
    requires !Outranked(s, subject)
    ensures Gone(SaveDecision(s, h, subject, next, row, mirrored), subject, false)
  {
    if AboutToWrite(s, subject) { assert s.request.grant.grantId != grant.grantId; }
    UpsertAnswers(s, subject, grant, next);
    SaveTables(s, h, subject, next, row, mirrored);
    SaveKeepsApart(s, h, subject, next, row, mirrored);
  }

  lemma DecideSaves(s: State, h: Id, subject: Id, decision: S.SessionEvent, mirrored: bool, now: Time)
    returns (grant: AccessGrant, next: AccessGrant)
    requires s.WellKeyed() && IdsApart(s) && Revokes(s, h, subject, decision, now)
    ensures Authority(s.grants, s.sessions, subject) == Some(grant)
    ensures SameTerms(grant, next) && OwnedBy(s, subject, next) && next.status.Revoked?
    ensures DecideOn(s, h, subject, decision, mirrored, now) ==
            SaveDecision(s, h, subject, next, MirroredRow(s.sessions, subject, decision, now), mirrored)
  {
    var answer, after := DecideOutcome(s, h, subject, decision, mirrored, now);
    grant, next := answer.value, after.value;
    TransitionKeepsOwner(s, subject, grant, S.AuthorizationEventFor(decision).value, now);
  }

  lemma RevokeKills(s: State, h: Id, subject: Id, decision: S.SessionEvent, mirrored: bool, now: Time)
    requires s.WellKeyed() && IdsApart(s) && Revokes(s, h, subject, decision, now) && !Outranked(s, subject)
    ensures Gone(DecideOn(s, h, subject, decision, mirrored, now), subject, mirrored && decision.Revoke?)
  {
    var grant, next := DecideSaves(s, h, subject, decision, mirrored, now);
    SaveKills(s, h, subject, grant, next, MirroredRow(s.sessions, subject, decision, now), mirrored);
    if decision.Revoke? && mirrored { RevokeClosesRow(s, h, subject, next, now); }
  }

  lemma RevokeClosesRow(s: State, h: Id, subject: Id, next: AccessGrant, now: Time)
    ensures RowClosed(SaveDecision(s, h, subject, next, MirroredRow(s.sessions, subject, S.Revoke, now), true), subject)
  {
  }

  lemma RevokeStepKills(env: Env, s: State, event: Event)
    requires env.Valid() && s.WellKeyed() && IdsApart(s) && event.DecideSession?
    requires Revokes(s, event.h, event.subject, event.decision, event.now) && !Outranked(s, event.subject)
    ensures Gone(Apply(env, s, event), event.subject, event.mirrored && event.decision.Revoke?)
  {
    var DecideSession(h, subject, decision, mirrored, now) := event;
    assert Apply(env, s, event) == DecideOn(s, h, subject, decision, mirrored, now);
    RevokeKills(s, h, subject, decision, mirrored, now);
  }

  lemma RevokedStateShutsOut(
    env: Env, r: State, seen: iset<Observation>, h: Id, subject: Id, decision: S.SessionEvent, mirrored: bool, now: Time,
    after: seq<Event>)
    requires env.Valid() && RefusesUnusable(env) && r.WellKeyed() && Safe(r) && IdsApart(r) && Backed(env, seen, r)
    requires Revokes(r, h, subject, decision, now) && !Outranked(r, subject)
    requires (mirrored && decision.Revoke?) || forall i | 0 <= i < |after| :: !after[i].Restart?
    ensures ShutOut(env, Apply(env, r, DecideSession(h, subject, decision, mirrored, now)), after, subject)
  {
    var event := DecideSession(h, subject, decision, mirrored, now);
    RevokeStepKills(env, r, event);
    StepSafe(env, r, event);
    AuthorityStepBacked(env, seen, r, event);
    GoneShutsOut(env, Apply(env, r, event), seen, after, subject, mirrored && decision.Revoke?);
  }

  /** Once a decision revokes the grant that answers a subject, then whatever follows, every evaluation
      for that subject refuses, and the only operations of it that still reach the core are ones whose
      handler had already passed its evaluation. This needs that the subject's own request was not just
      then between its two writes with a grant that outranks the revoked one; and across restarts, a
      Revoke whose session-row mirror was written. */
  lemma RevocationIsFinal(
    env: Env, s: State, before: seq<Event>, h: Id, subject: Id, decision: S.SessionEvent, mirrored: bool, now: Time,
    after: seq<Event>)
    requires env.Valid() && RefusesUnusable(env) && Booted(s) && IdsApart(s)
    requires (mirrored && decision.Revoke?) || forall i | 0 <= i < |after| :: !after[i].Restart?
    ensures var r := Run(env, s, before);
            Revokes(r, h, subject, decision, now) && !Outranked(r, subject) ==>
              ShutOut(env, Apply(env, r, DecideSession(h, subject, decision, mirrored, now)), after, subject)
  {
    var r := Run(env, s, before);
    RunSafe(env, s, before);
    RunBacked(env, s, before);
    RunKeepsApart(env, s, before);
    if Revokes(r, h, subject, decision, now) && !Outranked(r, subject) {
      RevokedStateShutsOut(env, r, Observed(env, s, before), h, subject, decision, mirrored, now, after);
    }
  }

  // A revocation and a request between its two writes -----------------------------------------------------------

  predicate WithoutRestart(events: seq<Event>) {
    forall i | 0 <= i < |events| :: !events[i].Restart?
  }

  ghost predicate StaysDead(env: Env, t: State, subject: Id)
    requires env.Valid() && t.WellKeyed()
  {
    forall after: seq<Event> | WithoutRestart(after) :: Dead(Run(env, t, after), subject)
  }

  lemma GoneStaysDead(env: Env, t: State, subject: Id)
    requires env.Valid() && t.WellKeyed() && Gone(t, subject, false)
    ensures StaysDead(env, t, subject)
  {
    forall after: seq<Event> | WithoutRestart(after) ensures Dead(Run(env, t, after), subject) {
      RunKeepsGone(env, t, after, subject, false);
    }
  }

  lemma LateWriteEndsIt(env: Env, t: State, subject: Id)
    requires env.Valid() && t.WellKeyed() && IdsApart(t) && AboutToWrite(t, subject)
    requires Persisted(t.grants, subject).Some? && Precedes(Persisted(t.grants, subject).value, t.request.grant)
    ensures !StaysDead(env, t, subject)
  {
    LateWriteAnswers(t, subject);
    var after := [SaveRequestGrant(Stored)];
    RunOfOne(env, t, after[0]);
    assert WithoutRestart(after) && !Dead(Run(env, t, after), subject);
  }

  /** Exactly when a revocation stands for the rest of the process: in every state that a run can reach, the
      revoked grant goes on answering its subject if and only if no grant that outranks it was about to be
      written when the decision landed. */
  lemma RevocationStandsIff(env: Env, r: State, h: Id, subject: Id, decision: S.SessionEvent, mirrored: bool, now: Time)
    requires env.Valid() && r.WellKeyed() && IdsApart(r) && Revokes(r, h, subject, decision, now)
    ensures StaysDead(env, Apply(env, r, DecideSession(h, subject, decision, mirrored, now)), subject) <==>
            !Outranked(r, subject)
  {
    var event := DecideSession(h, subject, decision, mirrored, now);
    if Outranked(r, subject) {
      RevokeStepAnswers(env, r, event);
      LateWriteEndsIt(env, Apply(env, r, event), subject);
    } else {
      RevokeStepKills(env, r, event);
      GoneStaysDead(env, Apply(env, r, event), subject);
    }
  }

  lemma RevokeStepAnswers(env: Env, r: State, event: Event)
    requires env.Valid() && r.WellKeyed() && IdsApart(r) && event.DecideSession?
    requires Revokes(r, event.h, event.subject, event.decision, event.now) && Outranked(r, event.subject)
    ensures var t := Apply(env, r, event);
            && IdsApart(t) && AboutToWrite(t, event.subject) && Persisted(t.grants, event.subject).Some?
            && Precedes(Persisted(t.grants, event.subject).value, t.request.grant)
  {
    RevokedAnswer(r, event.h, event.subject, event.decision, event.mirrored, event.now);
  }

  // The decided grant answers, on the terms of the one decided on, and the request is where it was.
  lemma RevokedAnswer(r: State, h: Id, subject: Id, decision: S.SessionEvent, mirrored: bool, now: Time)
    requires r.WellKeyed() && IdsApart(r) && Revokes(r, h, subject, decision, now)
    ensures var t := DecideOn(r, h, subject, decision, mirrored, now);
            && IdsApart(t) && t.request == r.request
            && Persisted(t.grants, subject).Some? && Persisted(t.grants, subject).value.status.Revoked?
            && SameTerms(Authority(r.grants, r.sessions, subject).value, Persisted(t.grants, subject).value)
            && (forall k | k in t.handlers && k != h :: k in r.handlers)
  {
    var grant, next := DecideSaves(r, h, subject, decision, mirrored, now);
    var row := MirroredRow(r.sessions, subject, decision, now);
    UpsertAnswers(r, subject, grant, next);
    SaveTables(r, h, subject, next, row, mirrored);
    SaveKeepsApart(r, h, subject, next, row, mirrored);
  }

  lemma LateWriteAnswers(t: State, subject: Id)
    requires t.WellKeyed() && IdsApart(t) && AboutToWrite(t, subject)
    requires Persisted(t.grants, subject).Some? && Precedes(Persisted(t.grants, subject).value, t.request.grant)
    ensures Persisted(GrantWrite(t, Stored).grants, subject) == Some(t.request.grant)
  {
    var g := t.request.grant;
    assert Upsert(t.grants, g) == t.grants[g.grantId := g];
    AnswerOfTwo(t.grants, g, subject);
  }

  /** The losing case is real: the write that was under way revives the revoked subject as a pending request,
      and a later Approve makes it usable until the deadline the request was given. */
  lemma LateWriteRevives(
    r: State, h: Id, k: Id, subject: Id, decision: S.SessionEvent, mirrored: bool, now: Time, mirrored': bool, approvedAt: Time)
    requires r.WellKeyed() && IdsApart(r) && Revokes(r, h, subject, decision, now) && Outranked(r, subject)
    requires k != h && k !in r.handlers
    ensures var revoked := DecideOn(r, h, subject, decision, mirrored, now);
            var revived := GrantWrite(revoked, Stored);
            var approved := DecideOn(revived, k, subject, S.Approve, mirrored', approvedAt);
            && Dead(revoked, subject)
            && Authority(revived.grants, revived.sessions, subject) == Some(r.request.grant)
            && Authority(approved.grants, approved.sessions, subject) ==
               Some(r.request.grant.(status := Active, approvedAt := Some(approvedAt)))
  {
    var revoked := DecideOn(r, h, subject, decision, mirrored, now);
    RevokedAnswer(r, h, subject, decision, mirrored, now);
    LateWriteAnswers(revoked, subject);
    GrantWriteKeepsApart(revoked, Stored);
    ApproveAnswers(GrantWrite(revoked, Stored), k, subject, r.request.grant, mirrored', approvedAt);
  }

  lemma ApproveAnswers(s: State, k: Id, subject: Id, g: AccessGrant, mirrored: bool, at: Time)
    requires s.WellKeyed() && IdsApart(s) && k !in s.handlers
    requires Persisted(s.grants, subject) == Some(g) && g.status.PendingApproval?
    ensures var t := DecideOn(s, k, subject, S.Approve, mirrored, at);
            Authority(t.grants, t.sessions, subject) == Some(g.(status := Active, approvedAt := Some(at)))
  {
    var next := g.(status := Active, approvedAt := Some(at));
    assert GM.Transition(g, GM.Approve, at) == Ok(next);
    AuthorityIsFor(s, subject);
    UpsertAnswers(s, subject, g, next);
    SaveTables(s, k, subject, next, MirroredRow(s.sessions, subject, S.Approve, at), mirrored);
  }

  /** And it is reached from an empty database: a request whose row is saved, and whose grant was stamped
      later than the row, stands outranking when a Revoke of that subject is accepted. */
  lemma RequestCanOutrank(
    env: Env, s: State, access: AccessRequest, subject: Id, grantId: Id, h: Id, rowAt: Time, grantAt: Time, now: Time)
    requires env.Valid() && Booted(s) && s.grants == map[] && s.sessions == map[]
    requires Admissible(env, s, access) && grantId != subject && rowAt < grantAt
    ensures var r := RowWrite(CheckRequest(env, s, access, subject, grantId, rowAt, grantAt), Stored);
            IdsApart(r) && Revokes(r, h, subject, S.Revoke, now) && Outranked(r, subject)
  {
    var g, row := RequestedGrant(env, access, subject, grantId, grantAt), RequestedRow(env, access, subject, rowAt);
    CheckOnEmpty(env, s, access, subject, grantId, rowAt, grantAt);
    DerivedFromRequest(env, access, subject, rowAt);
    RowAloneAnswers(RowWrite(s.(request := Checked(g, row)), Stored), h, subject, row, g, now);
  }

  lemma CheckOnEmpty(env: Env, s: State, access: AccessRequest, subject: Id, grantId: Id, rowAt: Time, grantAt: Time)
    requires env.Valid() && Booted(s) && s.grants == map[] && s.sessions == map[]
    requires Admissible(env, s, access) && grantId != subject
    ensures CheckRequest(env, s, access, subject, grantId, rowAt, grantAt) ==
            s.(request := Checked(RequestedGrant(env, access, subject, grantId, grantAt), RequestedRow(env, access, subject, rowAt)))
  {
    assert !HasLiveRequest(s.grants, RequestedGrant(env, access, subject, grantId, grantAt));
  }

  // Before any grant is written the row answers for its subject.
  lemma RowAloneAnswers(r: State, h: Id, subject: Id, row: Session, g: AccessGrant, now: Time)
    requires r.grants == map[] && r.sessions == map[subject := row] && row.sessionId == subject && r.handlers == map[]
    requires r.request == RowSaved(g) && g.subject == subject && g.grantId != subject && NewlyRequested(g)
    requires Derived(row).Some? && Derived(row).value.status.PendingApproval? && Derived(row).value.issuedAt < g.issuedAt
    ensures r.WellKeyed() && IdsApart(r) && Revokes(r, h, subject, S.Revoke, now) && Outranked(r, subject)
  {
    assert !HasGrant(r.grants, subject);
    assert Authority(r.grants, r.sessions, subject) == Derived(row);
  }

  lemma DerivedFromRequest(env: Env, access: AccessRequest, subject: Id, at: Time)
    requires env.Valid() && access.claimedDevice.Some?
    ensures var derived := Derived(RequestedRow(env, access, subject, at));
            derived.Some? && derived.value.status.PendingApproval? && derived.value.issuedAt == at
  {
  }
}
