/** How decisions, access requests and restarts change the grant and session tables, subject by subject. */
module AuthorityTables {
  import opened Prelude
  import opened Authorization
  import opened GrantStore
  import opened Daemon
  import GM = GrantMachine
  import S = Sessions

  // No grant carries the id of another subject's row, and a request under way still owns the ids it drew:
  // generated ids are unique.
  ghost predicate IdsApart(s: State) {
    && (forall id | id in s.grants && id in s.sessions :: s.grants[id].subject == id)
    && RequestSound(s)
  }

  // What a request has settled by the time it stands before its row write or its grant write.
  ghost predicate RequestSound(s: State) {
    match s.request
    case NoRequest => true
    case Checked(g, row) =>
      && NewlyRequested(g) && row.sessionId == g.subject && row.status.SessionPending?
      && UnusedIds(s, g.subject, g.grantId)
    case RowSaved(g) =>
      && NewlyRequested(g) && g.subject in s.sessions
      && g.grantId !in s.grants && g.grantId !in s.sessions && g.grantId != g.subject
      && (forall id | id in s.grants && s.grants[id].subject == g.subject :: id == g.subject)
  }

  ghost predicate NewlyRequested(g: AccessGrant) {
    g.status.PendingApproval? && g.migratedFrom.None?
  }

  // The same grants for one subject.
  ghost predicate SameFor(a: Grants, b: Grants, subject: Id) {
    && (forall id | id in a && a[id].subject == subject :: id in b && b[id] == a[id])
    && (forall id | id in b && b[id].subject == subject :: id in a && b[id] == a[id])
  }

  lemma SameAnswer(a: Grants, b: Grants, subject: Id)
    requires Keyed(a) && Keyed(b) && SameFor(a, b, subject)
    ensures Persisted(a, subject) == Persisted(b, subject)
  {
    if HasGrant(a, subject) {
      assert IsAnswer(b, subject, Persisted(a, subject).value.grantId);
    } else {
      assert !HasGrant(b, subject);
    }
  }

  lemma AuthorityIsFor(s: State, subject: Id)
    requires s.WellKeyed() && IdsApart(s) && Authority(s.grants, s.sessions, subject).Some?
    ensures OwnedBy(s, subject, Authority(s.grants, s.sessions, subject).value)
  {
  }

  // A grant of the subject that overwrites no grant of another.
  ghost predicate OwnedBy(s: State, subject: Id, g: AccessGrant) {
    && g.subject == subject
    && (if g.grantId in s.grants then s.grants[g.grantId].subject == subject
        else g.grantId == subject && subject in s.sessions)
  }

  lemma TransitionKeepsOwner(s: State, subject: Id, g: AccessGrant, event: GM.AuthorizationEvent, now: Time)
    requires OwnedBy(s, subject, g) && GM.Transition(g, event, now).Ok?
    ensures OwnedBy(s, subject, GM.Transition(g, event, now).value)
    ensures SameTerms(g, GM.Transition(g, event, now).value)
    ensures event.Revoke? || event.Deny? ==> GM.Transition(g, event, now).value.status == Revoked
  {
  }

  lemma SaveTables(s: State, h: Id, subject: Id, next: AccessGrant, row: Option<Session>, mirrored: bool)
    ensures SaveDecision(s, h, subject, next, row, mirrored).grants == Upsert(s.grants, next)
    ensures SaveDecision(s, h, subject, next, row, mirrored).sessions ==
            if row.Some? && mirrored then s.sessions[subject := row.value] else s.sessions
    ensures SaveDecision(s, h, subject, next, row, mirrored).request == s.request
  {
  }

  lemma UpsertIsLocal(s: State, subject: Id, next: AccessGrant)
    requires OwnedBy(s, subject, next)
    ensures forall id | id in Upsert(s.grants, next) && id != next.grantId ::
              id in s.grants && s.grants[id] == Upsert(s.grants, next)[id]
    ensures Upsert(s.grants, next)[next.grantId].subject == subject
    ensures next.grantId !in s.grants ==> next.grantId == subject
    ensures forall id | id in s.grants && id != next.grantId :: id in Upsert(s.grants, next)
  {
  }

  // A saved decision touches only its own subject, and its row only.
  lemma SaveIsLocal(s: State, h: Id, subject: Id, next: AccessGrant, row: Option<Session>, mirrored: bool, other: Id)
    requires s.WellKeyed() && OwnedBy(s, subject, next) && other != subject
    ensures var t := SaveDecision(s, h, subject, next, row, mirrored);
            && SameFor(s.grants, t.grants, other)
            && (other in t.sessions <==> other in s.sessions) && (other in s.sessions ==> t.sessions[other] == s.sessions[other])
  {
    SaveTables(s, h, subject, next, row, mirrored);
    UpsertIsLocal(s, subject, next);
  }

  lemma SaveKeepsApart(s: State, h: Id, subject: Id, next: AccessGrant, row: Option<Session>, mirrored: bool)
    requires s.WellKeyed() && IdsApart(s) && OwnedBy(s, subject, next) && (row.Some? ==> subject in s.sessions)
    ensures IdsApart(SaveDecision(s, h, subject, next, row, mirrored))
  {
    SaveTables(s, h, subject, next, row, mirrored);
    UpsertIsLocal(s, subject, next);
    assert Upsert(s.grants, next).Keys == s.grants.Keys + {next.grantId};
    SaveKeepsRequest(s, SaveDecision(s, h, subject, next, row, mirrored), subject, next);
  }

  // A request under way keeps the ids it drew, and its subject gets no grant but the one of its row.
  lemma SaveKeepsRequest(s: State, t: State, subject: Id, next: AccessGrant)
    requires IdsApart(s) && OwnedBy(s, subject, next)
    requires t.grants == Upsert(s.grants, next) && t.sessions.Keys == s.sessions.Keys && t.request == s.request
    ensures RequestSound(t)
  {
    UpsertIsLocal(s, subject, next);
    if !s.request.NoRequest? {
      var g := s.request.grant;
      assert next.grantId != g.grantId;
      if s.request.Checked? {
        assert next.grantId != g.subject && subject != g.subject;
        assert forall id | id in t.grants :: t.grants[id].subject != g.subject;
      }
    }
  }

  // A decision changes nothing, or saves the next state of the grant that answers its subject.
  lemma DecideOutcome(s: State, h: Id, subject: Id, decision: S.SessionEvent, mirrored: bool, now: Time)
    returns (grant: Option<AccessGrant>, next: Option<AccessGrant>)
    requires s.WellKeyed() && IdsApart(s)
    ensures grant == Authority(s.grants, s.sessions, subject)
    ensures next.Some? <==>
            && h !in s.handlers && grant.Some? && S.AuthorizationEventFor(decision).Some?
            && GM.Transition(grant.value, S.AuthorizationEventFor(decision).value, now).Ok?
    ensures next.None? ==> DecideOn(s, h, subject, decision, mirrored, now) == s
    ensures next.Some? ==>
              && grant.Some? && S.AuthorizationEventFor(decision).Some? && !grant.value.status.Terminal()
              && GM.Transition(grant.value, S.AuthorizationEventFor(decision).value, now) == Ok(next.value)
              && SameTerms(grant.value, next.value) && OwnedBy(s, subject, grant.value) && OwnedBy(s, subject, next.value)
              && DecideOn(s, h, subject, decision, mirrored, now) ==
                 SaveDecision(s, h, subject, next.value, MirroredRow(s.sessions, subject, decision, now), mirrored)
  {
    var event := S.AuthorizationEventFor(decision);
    grant, next := Authority(s.grants, s.sessions, subject), None;
    if h !in s.handlers && grant.Some? && event.Some? {
      var after := GM.Transition(grant.value, event.value, now);
      if after.Ok? {
        next := Some(after.value);
        AuthorityIsFor(s, subject);
        TransitionKeepsOwner(s, subject, grant.value, event.value, now);
      }
    }
  }

  lemma DecideIsLocal(s: State, h: Id, subject: Id, decision: S.SessionEvent, mirrored: bool, now: Time, other: Id)
    requires s.WellKeyed() && IdsApart(s)
    ensures IdsApart(DecideOn(s, h, subject, decision, mirrored, now))
    ensures other != subject ==>
              var t := DecideOn(s, h, subject, decision, mirrored, now);
              && SameFor(s.grants, t.grants, other)
              && (other in t.sessions <==> other in s.sessions) && (other in s.sessions ==> t.sessions[other] == s.sessions[other])
  {
    var _, next := DecideOutcome(s, h, subject, decision, mirrored, now);
    if next.Some? {
      var row := MirroredRow(s.sessions, subject, decision, now);
      SaveKeepsApart(s, h, subject, next.value, row, mirrored);
      if other != subject { SaveIsLocal(s, h, subject, next.value, row, mirrored, other); }
    }
  }

  lemma {:induction false} RebootKeepsApart(s: State)
    requires s.WellKeyed() && IdsApart(s)
    ensures IdsApart(Reboot(s))
  {
    MigrationIsAdditive(s.grants, s.sessions);
  }

  // Only the row of the subject itself can add a grant for it.
  lemma RebootAdds(s: State, subject: Id)
    requires s.WellKeyed()
    ensures var derived := if subject in s.sessions && subject !in s.grants then Derived(s.sessions[subject]) else None;
            SameFor(if derived.Some? then s.grants[subject := derived.value] else s.grants, Reboot(s).grants, subject)
  {
    MigrationIsAdditive(s.grants, s.sessions);
  }

  lemma AnswerOfTwo(grants: Grants, g: AccessGrant, subject: Id)
    requires Keyed(grants) && g.grantId !in grants && g.subject == subject && HasGrant(grants, subject)
    ensures var answer := Persisted(grants, subject).value;
            Persisted(grants[g.grantId := g], subject) == Some(if Precedes(answer, g) then g else answer)
  {
    var answer := Persisted(grants, subject).value;
    assert IsAnswer(grants[g.grantId := g], subject, if Precedes(answer, g) then g.grantId else answer.grantId);
  }

  ghost predicate SameTables(s: State, t: State) {
    t.grants == s.grants && t.sessions == s.sessions && t.request == s.request
  }

  // Events other than these touch neither table.
  predicate TouchesAuthority(event: Event) {
    event.DecideSession? || OfRequest(event) || event.Restart?
  }

  lemma OthersKeepTables(env: Env, s: State, event: Event)
    requires env.Valid() && s.WellKeyed() && !TouchesAuthority(event)
    ensures SameTables(s, Apply(env, s, event))
  {
    if event.OperationArrives? || event.Revalidate? {
      EvaluationKeepsTables(env, s, event);
    } else if event.TakeForApproval? || event.WriteApproval? || event.Requeue? || event.FinishApproval? {
      ApprovalKeepsTables(env, s, event);
    } else if event.TakeForDenial? || event.WriteDenial? || event.FinishDenial? || event.FinalizeInvalidated? {
      DenialKeepsTables(env, s, event);
    } else {
      RemoteKeepsTables(env, s, event);
    }
  }

  lemma RemoteKeepsTables(env: Env, s: State, event: Event)
    requires env.Valid() && s.WellKeyed()
    requires event.WriteAudit? || event.Dispatch? || event.ReportExecution? || event.InvalidatePending? || event.WorkspacesChange?
    ensures SameTables(s, Apply(env, s, event))
  {
    match event
    case WriteAudit(h, w) => AuditWriteKeepsTables(s, h, w);
    case Dispatch(h) => DispatchKeepsTables(s, h);
    case ReportExecution(_, _, _) =>
    case InvalidatePending(_) =>
    case WorkspacesChange(_) =>
  }

  lemma AuditWriteKeepsTables(s: State, h: Id, w: Write)
    ensures SameTables(s, AuditWrite(s, h, w))
  {
  }

  lemma DispatchKeepsTables(s: State, h: Id)
    ensures SameTables(s, DispatchRecorded(s, h))
  {
  }

  lemma EvaluationKeepsTables(env: Env, s: State, event: Event)
    requires env.Valid() && s.WellKeyed()
    requires event.OperationArrives? || event.Revalidate?
    ensures SameTables(s, Apply(env, s, event))
  {
  }

  lemma ApprovalKeepsTables(env: Env, s: State, event: Event)
    requires env.Valid() && s.WellKeyed()
    requires event.TakeForApproval? || event.WriteApproval? || event.Requeue? || event.FinishApproval?
    ensures SameTables(s, Apply(env, s, event))
  {
    match event
    case WriteApproval(h, w) => ApprovalWriteKeepsTables(s, h, w);
    case FinishApproval(h, connected, w) => ApprovalFinishKeepsTables(s, h, connected, w);
    case TakeForApproval(_, _) =>
    case Requeue(_) =>
  }

  lemma ApprovalWriteKeepsTables(s: State, h: Id, w: Write)
    ensures SameTables(s, ApprovalWrite(s, h, w))
  {
  }

  lemma ApprovalFinishKeepsTables(s: State, h: Id, connected: bool, w: Write)
    ensures SameTables(s, ApprovalFinish(s, h, connected, w))
  {
  }

  lemma DenialKeepsTables(env: Env, s: State, event: Event)
    requires env.Valid() && s.WellKeyed()
    requires event.TakeForDenial? || event.WriteDenial? || event.FinishDenial? || event.FinalizeInvalidated?
    ensures SameTables(s, Apply(env, s, event))
  {
  }

  lemma CheckKeepsApart(
    env: Env, s: State, access: AccessRequest, sessionId: Id, grantId: Id, sessionNow: Time, now: Time)
    requires env.Valid() && s.WellKeyed() && IdsApart(s)
    ensures IdsApart(CheckRequest(env, s, access, sessionId, grantId, sessionNow, now))
  {
  }

  lemma RowWriteKeepsApart(s: State, w: Write)
    requires s.WellKeyed() && IdsApart(s)
    ensures IdsApart(RowWrite(s, w))
  {
  }

  lemma GrantWriteKeepsApart(s: State, w: Write)
    requires s.WellKeyed() && IdsApart(s)
    ensures IdsApart(GrantWrite(s, w))
  {
  }

  lemma RequestKeepsApart(env: Env, s: State, event: Event)
    requires env.Valid() && s.WellKeyed() && IdsApart(s) && OfRequest(event)
    ensures IdsApart(Apply(env, s, event))
  {
    match event
    case AccessRequested(access, sessionId, grantId, sessionNow, now) =>
      CheckKeepsApart(env, s, access, sessionId, grantId, sessionNow, now);
    case SaveRequestRow(w) => RowWriteKeepsApart(s, w);
    case SaveRequestGrant(w) => GrantWriteKeepsApart(s, w);
  }

  lemma {:induction false} RunKeepsApart(env: Env, s: State, events: seq<Event>)
    requires env.Valid() && s.WellKeyed() && IdsApart(s)
    ensures IdsApart(Run(env, s, events))
    decreases |events|
  {
    if events != [] {
      var init, last := events[..|events| - 1], events[|events| - 1];
      RunKeepsApart(env, s, init);
      var u := Run(env, s, init);
      if !TouchesAuthority(last) {
        OthersKeepTables(env, u, last);
      } else if last.DecideSession? {
        DecideIsLocal(u, last.h, last.subject, last.decision, last.mirrored, last.now, last.subject);
      } else if last.Restart? {
        RebootKeepsApart(u);
      } else {
        RequestKeepsApart(env, u, last);
      }
    }
  }
}
