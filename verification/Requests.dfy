/** What access requests and local decisions make of the grant table over whole runs: terms never
    change, one live grant per request, bounded lifetimes, and nothing runs that nobody approved. */
module Requests {
  import opened Prelude
  import opened Authorization
  import opened Policy
  import opened GrantStore
  import opened Daemon
  import opened PipelineSafety
  import opened PolicyInPipeline
  import opened AuthorityTables
  import opened Refusals
  import GM = GrantMachine
  import S = Sessions

  // One step of the table --------------------------------------------------------------------------------

  // Every grant is still there with the same terms, and unchanged if it was terminal.
  ghost predicate Carries(a: Grants, b: Grants) {
    forall id | id in a :: id in b && SameTerms(a[id], b[id]) && (a[id].status.Terminal() ==> b[id] == a[id])
  }

  // What is new came from a session row, or is the grant of the request under way.
  ghost predicate AddsOnly(s: State, b: Grants) {
    forall id | id in b && id !in s.grants :: b[id].migratedFrom.Some? || (s.request.RowSaved? && b[id] == s.request.grant)
  }

  ghost predicate TableStep(s: State, b: Grants) {
    Carries(s.grants, b) && AddsOnly(s, b)
  }

  lemma DecideTableStep(s: State, h: Id, subject: Id, decision: S.SessionEvent, mirrored: bool, now: Time)
    requires s.WellKeyed() && IdsApart(s)
    ensures TableStep(s, DecideOn(s, h, subject, decision, mirrored, now).grants)
  {
    var grant, next := DecideOutcome(s, h, subject, decision, mirrored, now);
    if next.Some? {
      SaveTables(s, h, subject, next.value, MirroredRow(s.sessions, subject, decision, now), mirrored);
      UpsertTableStep(s, subject, grant.value, next.value);
    }
  }

  lemma UpsertTableStep(s: State, subject: Id, grant: AccessGrant, next: AccessGrant)
    requires s.WellKeyed() && IdsApart(s)
    requires Authority(s.grants, s.sessions, subject) == Some(grant) && !grant.status.Terminal()
    requires SameTerms(grant, next) && OwnedBy(s, subject, grant)
    ensures TableStep(s, Upsert(s.grants, next))
  {
    if HasGrant(s.grants, subject) {
      assert s.grants[grant.grantId] == grant;
    } else {
      assert grant.grantId !in s.grants;
      assert grant.migratedFrom.Some?;
    }
    assert Upsert(s.grants, next) == s.grants[next.grantId := next];
  }

  lemma RequestTableStep(env: Env, s: State, event: Event)
    requires env.Valid() && s.WellKeyed() && IdsApart(s) && OfRequest(event)
    ensures TableStep(s, Apply(env, s, event).grants)
  {
    if event.SaveRequestGrant? { GrantWriteTableStep(s, event.w); }
  }

  lemma GrantWriteTableStep(s: State, w: Write)
    requires IdsApart(s)
    ensures TableStep(s, GrantWrite(s, w).grants)
  {
  }

  lemma RebootTableStep(s: State)
    requires s.WellKeyed()
    ensures TableStep(s, Reboot(s).grants)
  {
    MigrationIsAdditive(s.grants, s.sessions);
  }

  lemma StepIsTableStep(env: Env, s: State, event: Event)
    requires env.Valid() && s.WellKeyed() && IdsApart(s)
    ensures TableStep(s, Apply(env, s, event).grants)
  {
    if !TouchesAuthority(event) {
      OthersKeepTables(env, s, event);
    } else if event.DecideSession? {
      DecideTableStep(s, event.h, event.subject, event.decision, event.mirrored, event.now);
    } else if event.Restart? {
      RebootTableStep(s);
    } else {
      RequestTableStep(env, s, event);
    }
  }

  // Runs ---------------------------------------------------------------------------------------------------

  lemma CarriesCompose(a: Grants, b: Grants, c: Grants)
    requires Carries(a, b) && Carries(b, c)
    ensures Carries(a, c)
  {
  }

  /** Over every run, restarts included, no stored grant loses or changes its terms, and one that reached a
      terminal state is never touched again. */
  lemma {:induction false} RunCarriesGrants(env: Env, s: State, events: seq<Event>)
    requires env.Valid() && s.WellKeyed() && IdsApart(s)
    ensures Carries(s.grants, Run(env, s, events).grants)
    decreases |events|
  {
    if events != [] {
      var init, last := events[..|events| - 1], events[|events| - 1];
      RunCarriesGrants(env, s, init);
      RunKeepsApart(env, s, init);
      StepIsTableStep(env, Run(env, s, init), last);
      CarriesCompose(s.grants, Run(env, s, init).grants, Run(env, s, events).grants);
    }
  }

  // Request-made grants: one live grant for each device, principal, scope, workspaces and profile.
  ghost predicate OneLivePerRequest(grants: Grants) {
    forall a, b | a in grants && b in grants && a != b && grants[a].migratedFrom.None? && grants[b].migratedFrom.None? ::
      grants[a].Live() && grants[b].Live() ==> !SameRequest(grants[a], grants[b])
  }

  ghost predicate LifetimeBounded(g: AccessGrant) {
    60 <= g.expiresAt - g.issuedAt <= 60 * MAX_TTL_MINUTES
  }

  ghost predicate LifetimesBounded(grants: Grants) {
    forall id | id in grants && grants[id].migratedFrom.None? :: LifetimeBounded(grants[id])
  }

  // No live request-made grant asks for the same.
  ghost predicate NoTwin(grants: Grants, g: AccessGrant) {
    forall id | id in grants && grants[id].migratedFrom.None? && grants[id].Live() :: !SameRequest(grants[id], g)
  }

  // What the duplicate search found still holds when the grant is finally written.
  ghost predicate Promised(s: State) {
    && OneLivePerRequest(s.grants) && LifetimesBounded(s.grants)
    && (!s.request.NoRequest? ==> LifetimeBounded(s.request.grant) && NoTwin(s.grants, s.request.grant))
  }

  // Decisions and migration never bring a twin to life.
  lemma NoTwinKept(a: Grants, b: Grants, g: AccessGrant)
    requires Carries(a, b) && NoTwin(a, g)
    requires forall id | id in b && id !in a :: b[id].migratedFrom.Some?
    ensures NoTwin(b, g)
  {
    forall id | id in b && b[id].migratedFrom.None? && b[id].Live() ensures !SameRequest(b[id], g) {
      assert id in a && SameTerms(a[id], b[id]);
    }
  }

  lemma TableStepKeepsOneLive(s: State, b: Grants)
    requires TableStep(s, b) && Promised(s) && Keyed(b)
    ensures OneLivePerRequest(b) && LifetimesBounded(b)
  {
    assert s.request.RowSaved? ==>
        forall id | id in b && id !in s.grants && b[id].migratedFrom.None? :: id == s.request.grant.grantId;
  }

  lemma DecideKeepsPromise(s: State, h: Id, subject: Id, decision: S.SessionEvent, mirrored: bool, now: Time)
    requires s.WellKeyed() && IdsApart(s) && Promised(s)
    ensures Promised(DecideOn(s, h, subject, decision, mirrored, now))
  {
    var t := DecideOn(s, h, subject, decision, mirrored, now);
    var grant, next := DecideOutcome(s, h, subject, decision, mirrored, now);
    if next.Some? {
      SaveTables(s, h, subject, next.value, MirroredRow(s.sessions, subject, decision, now), mirrored);
      DecideTableStep(s, h, subject, decision, mirrored, now);
      TableStepKeepsOneLive(s, t.grants);
      if !s.request.NoRequest? {
        UpsertIsLocal(s, subject, next.value);
        NoTwinKept(s.grants, t.grants, s.request.grant);
      }
    }
  }

  lemma CheckKeepsPromise(
    env: Env, s: State, access: AccessRequest, sessionId: Id, grantId: Id, sessionNow: Time, now: Time)
    requires env.Valid() && s.WellKeyed() && Promised(s)
    ensures Promised(CheckRequest(env, s, access, sessionId, grantId, sessionNow, now))
  {
  }

  lemma RowWriteKeepsPromise(s: State, w: Write)
    requires Promised(s)
    ensures Promised(RowWrite(s, w))
  {
  }

  lemma RequestKeepsPromise(env: Env, s: State, event: Event)
    requires env.Valid() && s.WellKeyed() && IdsApart(s) && Promised(s) && OfRequest(event)
    ensures Promised(Apply(env, s, event))
  {
    match event
    case AccessRequested(access, sessionId, grantId, sessionNow, now) =>
      CheckKeepsPromise(env, s, access, sessionId, grantId, sessionNow, now);
    case SaveRequestRow(w) => RowWriteKeepsPromise(s, w);
    case SaveRequestGrant(_) =>
      RequestTableStep(env, s, event);
      TableStepKeepsOneLive(s, Apply(env, s, event).grants);
  }

  lemma StepKeepsPromise(env: Env, s: State, event: Event)
    requires env.Valid() && s.WellKeyed() && IdsApart(s) && Promised(s)
    ensures Promised(Apply(env, s, event))
  {
    if !TouchesAuthority(event) {
      OthersKeepTables(env, s, event);
    } else if event.DecideSession? {
      DecideKeepsPromise(s, event.h, event.subject, event.decision, event.mirrored, event.now);
    } else if event.Restart? {
      RebootTableStep(s);
      TableStepKeepsOneLive(s, Reboot(s).grants);
    } else {
      RequestKeepsPromise(env, s, event);
    }
  }

  /** Over every run the table holds at most one live grant per distinct request, although the duplicate
      search and the write of the grant are separate statements; and each request-made grant lives between
      a minute and 525,600 minutes whatever 64-bit value was asked for. */
  lemma {:induction false} OneLiveGrantPerRequest(env: Env, s: State, events: seq<Event>)
    requires env.Valid() && s.WellKeyed() && IdsApart(s) && Promised(s)
    ensures Promised(Run(env, s, events))
    decreases |events|
  {
    if events != [] {
      var init, last := events[..|events| - 1], events[|events| - 1];
      OneLiveGrantPerRequest(env, s, init);
      RunKeepsApart(env, s, init);
      StepKeepsPromise(env, Run(env, s, init), last);
    }
  }

  lemma SameAccessSameRequest(
    env: Env, request: AccessRequest, sessionId: Id, grantId: Id, now: Time, sessionId': Id, grantId': Id, now': Time,
    g: AccessGrant)
    requires env.Valid() && request.claimedDevice.Some?
    requires SameTerms(RequestedGrant(env, request, sessionId, grantId, now), g)
    ensures SameRequest(g, RequestedGrant(env, request, sessionId', grantId', now'))
  {
  }

  /** A request whose grant was written, asked for again with any generated ids and at any time, changes
      nothing for as long as that grant is live, whatever happened in between. */
  lemma RepeatedRequestChangesNothing(
    env: Env, s: State, request: AccessRequest, sessionId: Id, grantId: Id, now: Time, w: Write, between: seq<Event>,
    sessionId': Id, grantId': Id, sessionNow': Time, now': Time)
    requires env.Valid() && s.WellKeyed() && IdsApart(s) && request.claimedDevice.Some? && !w.Lost?
    requires s.request == RowSaved(RequestedGrant(env, request, sessionId, grantId, now))
    ensures var u := Run(env, GrantWrite(s, w), between);
            && grantId in u.grants
            && (u.grants[grantId].Live() ==> CheckRequest(env, u, request, sessionId', grantId', sessionNow', now') == u)
  {
    var t := GrantWrite(s, w);
    assert t.grants[grantId] == RequestedGrant(env, request, sessionId, grantId, now);
    GrantWriteKeepsApart(s, w);
    RunCarriesGrants(env, t, between);
    var g := Run(env, t, between).grants[grantId];
    SameAccessSameRequest(env, request, sessionId, grantId, now, sessionId', grantId', now', g);
  }

  // Nothing without approval -----------------------------------------------------------------------------------

  predicate Approval(status: Status) {
    status.Active? || status.Suspended?
  }

  predicate RowApproval(status: SessionStatus) {
    status.SessionActive? || status.SessionSuspended?
  }

  // No grant and no row of the subject is approved.
  ghost predicate Unapproved(s: State, subject: Id) {
    && (forall id | id in s.grants && s.grants[id].subject == subject :: !Approval(s.grants[id].status))
    && (subject in s.sessions ==> !RowApproval(s.sessions[subject].status))
  }

  predicate Approves(event: Event, subject: Id) {
    event.DecideSession? && event.subject == subject && event.decision.Approve?
  }

  lemma UnapprovedAuthority(s: State, subject: Id)
    requires s.WellKeyed() && Unapproved(s, subject)
    ensures var grant := Authority(s.grants, s.sessions, subject); grant.None? || !Approval(grant.value.status)
  {
  }

  lemma OwnDecisionKeepsUnapproved(s: State, h: Id, subject: Id, decision: S.SessionEvent, mirrored: bool, now: Time)
    requires s.WellKeyed() && IdsApart(s) && Unapproved(s, subject) && !decision.Approve?
    ensures Unapproved(DecideOn(s, h, subject, decision, mirrored, now), subject)
  {
    var grant, next := DecideOutcome(s, h, subject, decision, mirrored, now);
    if next.Some? {
      UnapprovedAuthority(s, subject);
      NextStaysUnapproved(grant.value, S.AuthorizationEventFor(decision).value, now);
      RowStaysUnapproved(s, subject, decision, now);
      SaveStaysUnapproved(s, h, subject, next.value, MirroredRow(s.sessions, subject, decision, now), mirrored);
    }
  }

  lemma NextStaysUnapproved(g: AccessGrant, event: GM.AuthorizationEvent, now: Time)
    requires !Approval(g.status) && !event.Approve? && GM.Transition(g, event, now).Ok?
    ensures !Approval(GM.Transition(g, event, now).value.status)
  {
  }

  lemma SaveStaysUnapproved(s: State, h: Id, subject: Id, next: AccessGrant, row: Option<Session>, mirrored: bool)
    requires Unapproved(s, subject) && OwnedBy(s, subject, next) && !Approval(next.status)
    requires row.None? || !RowApproval(row.value.status)
    ensures Unapproved(SaveDecision(s, h, subject, next, row, mirrored), subject)
  {
    SaveTables(s, h, subject, next, row, mirrored);
    UpsertIsLocal(s, subject, next);
    assert Upsert(s.grants, next)[next.grantId].status == next.status;
  }

  lemma RowStaysUnapproved(s: State, subject: Id, decision: S.SessionEvent, now: Time)
    requires Unapproved(s, subject) && !decision.Approve?
    ensures var row := MirroredRow(s.sessions, subject, decision, now); row.None? || !RowApproval(row.value.status)
  {
  }

  lemma CheckKeepsUnapproved(
    env: Env, s: State, access: AccessRequest, sessionId: Id, grantId: Id, sessionNow: Time, now: Time, subject: Id)
    requires env.Valid() && s.WellKeyed() && Unapproved(s, subject)
    ensures Unapproved(CheckRequest(env, s, access, sessionId, grantId, sessionNow, now), subject)
  {
  }

  lemma RowWriteKeepsUnapproved(s: State, w: Write, subject: Id)
    requires IdsApart(s) && Unapproved(s, subject)
    ensures Unapproved(RowWrite(s, w), subject)
  {
  }

  lemma GrantWriteKeepsUnapproved(s: State, w: Write, subject: Id)
    requires IdsApart(s) && Unapproved(s, subject)
    ensures Unapproved(GrantWrite(s, w), subject)
  {
  }

  lemma RequestKeepsUnapproved(env: Env, s: State, event: Event, subject: Id)
    requires env.Valid() && s.WellKeyed() && IdsApart(s) && Unapproved(s, subject) && OfRequest(event)
    ensures Unapproved(Apply(env, s, event), subject)
  {
    match event
    case AccessRequested(access, sessionId, grantId, sessionNow, now) =>
      CheckKeepsUnapproved(env, s, access, sessionId, grantId, sessionNow, now, subject);
    case SaveRequestRow(w) => RowWriteKeepsUnapproved(s, w, subject);
    case SaveRequestGrant(w) => GrantWriteKeepsUnapproved(s, w, subject);
  }

  lemma RebootKeepsUnapproved(s: State, subject: Id)
    requires s.WellKeyed() && Unapproved(s, subject)
    ensures Unapproved(Reboot(s), subject)
  {
    RebootAdds(s, subject);
  }

  lemma StepKeepsUnapproved(env: Env, s: State, event: Event, subject: Id)
    requires env.Valid() && s.WellKeyed() && IdsApart(s) && Unapproved(s, subject) && !Approves(event, subject)
    ensures Unapproved(Apply(env, s, event), subject)
  {
    if !TouchesAuthority(event) {
      OthersKeepTables(env, s, event);
    } else if event.DecideSession? {
      if event.subject == subject {
        OwnDecisionKeepsUnapproved(s, event.h, subject, event.decision, event.mirrored, event.now);
      } else {
        DecideIsLocal(s, event.h, event.subject, event.decision, event.mirrored, event.now, subject);
      }
    } else if OfRequest(event) {
      RequestKeepsUnapproved(env, s, event, subject);
    } else {
      RebootKeepsUnapproved(s, subject);
    }
  }

  lemma {:induction false} RunKeepsUnapproved(env: Env, s: State, events: seq<Event>, subject: Id)
    requires env.Valid() && s.WellKeyed() && IdsApart(s) && Unapproved(s, subject)
    requires forall i | 0 <= i < |events| :: !Approves(events[i], subject)
    ensures Unapproved(Run(env, s, events), subject)
    decreases |events|
  {
    if events != [] {
      var init, last := events[..|events| - 1], events[|events| - 1];
      RunKeepsUnapproved(env, s, init, subject);
      RunKeepsApart(env, s, init);
      StepKeepsUnapproved(env, Run(env, s, init), last, subject);
    }
  }

  /** Deny by default, end to end: from a database in which the subject has nothing approved, an operation
      of it reaches the core only in runs in which someone locally approved that subject. */
  lemma NothingRunsUnapproved(env: Env, s: State, events: seq<Event>, i: nat)
    requires env.Valid() && RefusesUnusable(env) && Booted(s) && IdsApart(s)
    requires i < |Run(env, s, events).calls|
    requires Unapproved(s, Run(env, s, events).calls[i].request.sessionId)
    ensures exists k | 0 <= k < |events| :: Approves(events[k], Run(env, s, events).calls[i].request.sessionId)
  {
    var subject := Run(env, s, events).calls[i].request.sessionId;
    if forall k | 0 <= k < |events| :: !Approves(events[k], subject) {
      forall n | 0 <= n <= |events| ensures Refused(env, Run(env, s, events[..n]), subject) {
        RunKeepsUnapproved(env, s, events[..n], subject);
        UnapprovedAuthority(Run(env, s, events[..n]), subject);
        UnusableIsRefused(env, Run(env, s, events[..n]), subject);
      }
      RefusedShutsOut(env, s, iset{}, events, subject);
    }
  }
}
