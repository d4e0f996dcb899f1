/** The handlers of apps/daemon/src/remote_processor.rs as they change the daemon's state in place. Run
    without interruption, each is the sequence of pipeline steps it is cut into. */
module Gateway {
  import opened Prelude
  import opened Authorization
  import opened Boundary
  import opened Policy
  import opened GrantStore
  import opened Daemon
  import opened PipelineTheorems
  import GM = GrantMachine
  import S = Sessions

  datatype HandlerError = NoSuchOperation | AuditPersistence | NoLongerAuthorized

  // Whole handlers as compositions of pipeline steps.
  ghost function HandledOperation(
    env: Env, s: State, h: Id, request: OperationRequest, claimed: Option<Id>, actor: Option<VerifiedPrincipal>,
    fs: FileSystem, now: Time, record: Write, core: CoreResult, report: Write): State
    requires env.Valid() && s.WellKeyed()
  {
    Report(DispatchRecorded(AuditWrite(Arrive(env, s, h, request, claimed, actor, fs, now), h, record), h), h, core, report)
  }

  ghost function HandledApproval(
    env: Env, s: State, h: Id, operation: Id, fs: FileSystem, now: Time, decided: Write, connected: bool, denied: Write,
    core: CoreResult, report: Write): State
    requires env.Valid() && s.WellKeyed()
  {
    var judged := RevalidateTaken(env, TakeApproval(s, h, operation), h, fs, now);
    Report(ApprovalFinish(RequeueTaken(ApprovalWrite(judged, h, decided), h), h, connected, denied), h, core, report)
  }

  ghost function HandledDenial(s: State, h: Id, operation: Id, decided: Write, finished: Write): State {
    DenialFinish(DenialWrite(TakeDenial(s, h, operation), h, decided), h, finished)
  }

  // What was queued still holds: on the grant and workspace stored now the verdict is to ask for approval
  // of exactly the queued capability and risk.
  ghost predicate Stands(env: Env, s: State, entry: PendingOperation, fs: FileSystem, now: Time)
    requires s.WellKeyed()
  {
    var grant := Authority(s.grants, s.sessions, entry.request.sessionId);
    && grant.Some? && entry.request.workspaceId in s.workspaces
    && env.verdict(entry.request, Evidence(grant.value, s.workspaces[entry.request.workspaceId], fs, now)) ==
       RequireApproval(entry.capability, entry.risk)
  }

  // A step of a handler that is gone changes nothing.
  lemma IdleRemote(s: State, h: Id, record: Write, core: CoreResult, report: Write)
    requires h !in s.handlers
    ensures AuditWrite(s, h, record) == s && DispatchRecorded(s, h) == s && Report(s, h, core, report) == s
  {
  }

  lemma IdleFinish(s: State, h: Id, connected: bool, denied: Write, core: CoreResult, report: Write)
    requires h !in s.handlers
    ensures ApprovalFinish(s, h, connected, denied) == s && Report(s, h, core, report) == s
  {
  }

  lemma IdleApproval(
    env: Env, s: State, h: Id, fs: FileSystem, now: Time, decided: Write, connected: bool, denied: Write, core: CoreResult, report: Write)
    requires env.Valid() && s.WellKeyed() && h !in s.handlers
    ensures RevalidateTaken(env, s, h, fs, now) == s && ApprovalWrite(s, h, decided) == s && RequeueTaken(s, h) == s
    ensures ApprovalFinish(s, h, connected, denied) == s && Report(s, h, core, report) == s
  {
  }

  class DaemonState {
    const env: Env
    const repo: AuthorizationRepository
    var sessions: SessionRows
    var workspaces: map<Id, Workspace>
    var audit: Audit
    var pending: map<Id, PendingOperation>
    var calls: seq<CoreCall>
    // Handlers under way, this one included.
    ghost var handlers: map<Id, Handler>
    // How far the access request in hand has come.
    ghost var request: RequestProgress

    ghost function View(): (s: State)
      reads this, repo
    {
      State(repo.grants, sessions, workspaces, audit, pending, handlers, calls, request)
    }

    ghost predicate Valid()
      reads this, repo
    {
      env.Valid() && View().WellKeyed()
    }

    constructor (env: Env, repo: AuthorizationRepository)
      ensures this.env == env && this.repo == repo
      ensures View() == State(repo.grants, map[], map[], map[], map[], map[], [], NoRequest)
    {
      this.env := env;
      this.repo := repo;
      sessions, workspaces, audit, pending, calls := map[], map[], map[], map[], [];
      handlers, request := map[], NoRequest;
    }

    // A persisted grant first, then the one derived from the session row.
    method ResolveGrant(subject: Id) returns (grant: Option<AccessGrant>)
      requires Valid()
      ensures grant == Authority(repo.grants, sessions, subject)
    {
      grant := repo.LoadGrantForSubject(subject);
      if grant.None? && subject in sessions { grant := Derived(sessions[subject]); }
    }

    method EvaluateOperationRequest(request: OperationRequest, fs: FileSystem, now: Time)
      returns (decision: PolicyDecision, grant: Option<AccessGrant>, evidence: Option<Evidence>)
      requires Valid()
      ensures decision == Evaluate(env, View(), request, fs, now)
      ensures grant == Authority(repo.grants, sessions, request.sessionId)
      ensures evidence == EvidenceFor(View(), request, fs, now)
    {
      grant := ResolveGrant(request.sessionId);
      if grant.Some? && request.workspaceId in workspaces {
        evidence := Some(Evidence(grant.value, workspaces[request.workspaceId], fs, now));
        decision := env.verdict(request, evidence.value);
      } else {
        evidence := None;
        decision := Policy.Deny(if request.workspaceId in workspaces then AuthorizationNotEstablished else WorkspaceNotAuthorized);
      }
    }

    // Device binding, evaluation and the transport's principal; None when the request is dropped.
    method Admit(
      ghost h: Id, request: OperationRequest, claimed: Option<Id>, actor: Option<VerifiedPrincipal>, fs: FileSystem, now: Time)
      returns (judged: Option<(PolicyDecision, Option<Evidence>)>)
      requires Valid() && h !in handlers
      modifies this`handlers
      ensures View() == Arrive(env, old(View()), h, request, claimed, actor, fs, now)
      ensures judged.None? ==> handlers == old(handlers)
      ensures judged.Some? ==> handlers == old(handlers)[h := Evaluated(request, judged.value.0, judged.value.1)]
    {
      judged := None;
      if claimed.None? || env.device != claimed { return; }
      var decision, grant, evidence := EvaluateOperationRequest(request, fs, now);
      var bound := if grant.Some? then Some(grant.value.device)
                   else if request.sessionId in sessions then Some(sessions[request.sessionId].device) else None;
      if bound != claimed { return; }
      if grant.Some? && !grant.value.principal.AcceptsTransportPrincipal(actor) {
        decision := Policy.Deny(PrincipalBindingMismatch);
      }
      handlers := handlers[h := Evaluated(request, decision, evidence)];
      judged := Some((decision, evidence));
    }

    // The durable pre-execution record.
    method Record(ghost h: Id, request: OperationRequest, decision: PolicyDecision, ghost evidence: Option<Evidence>, w: Write)
      returns (ok: bool)
      requires h in handlers && handlers[h] == Evaluated(request, decision, evidence)
      modifies this`audit, this`handlers
      ensures View() == AuditWrite(old(View()), h, w)
      ensures handlers == if ok then old(handlers)[h := Recorded(request, decision, evidence)] else old(handlers) - {h}
    {
      var recorded := RecordRow(audit, request.operationId, RowFor(request, decision), w);
      audit := recorded.0;
      ok := recorded.1;
      handlers := if ok then handlers[h := Recorded(request, decision, evidence)] else handlers - {h};
    }

    // Execute, refuse or queue.
    method Dispatch(ghost h: Id, request: OperationRequest, decision: PolicyDecision, evidence: Option<Evidence>)
      requires h in handlers && handlers[h] == Recorded(request, decision, evidence)
      modifies this`calls, this`pending, this`handlers
      ensures View() == DispatchRecorded(old(View()), h)
      ensures handlers == if decision.Allow? then old(handlers)[h := Executed(request.operationId)] else old(handlers) - {h}
    {
      match decision
      case Allow(capability, risk) =>
        calls := calls + [CoreCall(request, capability, risk, false, evidence)];
        handlers := handlers[h := Executed(request.operationId)];
      case Deny(_) =>
        handlers := handlers - {h};
      case RequireApproval(capability, risk) =>
        pending := pending[request.operationId := PendingOperation(request, capability, risk)];
        handlers := handlers - {h};
    }

    // The outcome of a core call is written back.
    method ReportOutcome(ghost h: Id, operation: Id, core: CoreResult, w: Write)
      requires h in handlers && handlers[h] == Executed(operation)
      modifies this`audit, this`handlers
      ensures View() == Report(old(View()), h, core, w)
      ensures handlers == old(handlers) - {h}
    {
      audit := UpdateExecution(audit, operation, ExecutionOf(core), w);
      handlers := handlers - {h};
    }

    method HandleOperationRequest(
      ghost h: Id, request: OperationRequest, claimed: Option<Id>, actor: Option<VerifiedPrincipal>, fs: FileSystem, now: Time,
      record: Write, core: CoreResult, report: Write)
      requires Valid() && h !in handlers
      modifies this
      ensures View() == HandledOperation(env, old(View()), h, request, claimed, actor, fs, now, record, core, report)
      ensures h !in handlers
    {
      ghost var s1 := Arrive(env, View(), h, request, claimed, actor, fs, now);
      var judged := Admit(h, request, claimed, actor, fs, now);
      assert View() == s1;
      if judged.None? {
        IdleRemote(s1, h, record, core, report);
        return;
      }
      var (decision, evidence) := judged.value;
      var ok := Record(h, request, decision, evidence, record);
      ghost var s2 := AuditWrite(s1, h, record);
      assert View() == s2;
      if !ok {
        IdleRemote(s2, h, record, core, report);
        return;
      }
      Dispatch(h, request, decision, evidence);
      ghost var s3 := DispatchRecorded(s2, h);
      assert View() == s3;
      if decision.Allow? {
        ReportOutcome(h, request.operationId, core, report);
      } else {
        IdleRemote(s3, h, record, core, report);
      }
    }

    method TakePending(ghost h: Id, operation: Id) returns (entry: Option<PendingOperation>)
      requires h !in handlers
      modifies this`pending, this`handlers
      ensures View() == TakeApproval(old(View()), h, operation)
      ensures entry.None? <==> operation !in old(pending)
      ensures entry.Some? ==> handlers == old(handlers)[h := Revalidating(operation, entry.value)]
      ensures entry.Some? ==> entry.value == old(pending)[operation] && pending == old(pending) - {operation}
    {
      if operation !in pending { return None; }
      entry := Some(pending[operation]);
      pending := pending - {operation};
      handlers := handlers[h := Revalidating(operation, entry.value)];
    }

    // The entry is judged again as of now, and must still be exactly what was queued.
    method RevalidatePending(ghost h: Id, operation: Id, entry: PendingOperation, fs: FileSystem, now: Time)
      returns (authorized: bool, evidence: Option<Evidence>)
      requires Valid() && h in handlers && handlers[h] == Revalidating(operation, entry)
      modifies this`handlers
      ensures View() == RevalidateTaken(env, old(View()), h, fs, now)
      ensures handlers == old(handlers)[h := Revalidated(operation, entry, authorized, evidence)]
      ensures authorized <==> Stands(env, old(View()), entry, fs, now)
    {
      var current, _, seen := EvaluateOperationRequest(entry.request, fs, now);
      authorized, evidence := current == RequireApproval(entry.capability, entry.risk), seen;
      handlers := handlers[h := Revalidated(operation, entry, authorized, evidence)];
    }

    // Out of the queue and judged again.
    method TakeAndRevalidate(ghost h: Id, operation: Id, fs: FileSystem, now: Time)
      returns (taken: Option<(PendingOperation, bool, Option<Evidence>)>)
      requires Valid() && h !in handlers
      modifies this`pending, this`handlers
      ensures View() == RevalidateTaken(env, TakeApproval(old(View()), h, operation), h, fs, now)
      ensures taken.None? <==> operation !in old(pending)
      ensures taken.None? ==> handlers == old(handlers)
      ensures taken.Some? ==>
                var (entry, authorized, evidence) := taken.value;
                && entry == old(pending)[operation] && (authorized <==> Stands(env, old(View()), entry, fs, now))
                && handlers == old(handlers)[h := Revalidated(operation, entry, authorized, evidence)]
    {
      var entry := TakePending(h, operation);
      if entry.None? { return None; }
      var authorized, evidence := RevalidatePending(h, operation, entry.value, fs, now);
      taken := Some((entry.value, authorized, evidence));
    }

    method RecordApproval(
      ghost h: Id, operation: Id, entry: PendingOperation, authorized: bool, evidence: Option<Evidence>, w: Write)
      returns (ok: bool)
      requires h in handlers && handlers[h] == Revalidated(operation, entry, authorized, evidence)
      modifies this`audit, this`handlers
      ensures View() == ApprovalWrite(old(View()), h, w)
      ensures handlers == old(handlers)[h := if ok then Approved(operation, entry, authorized, evidence) else Requeueing(operation, entry)]
      ensures ok <==> w.Stored? && operation in old(audit)
    {
      var written := UpdateApproval(audit, operation, AllowOnce, w);
      audit := written.0;
      ok := written.1;
      handlers := handlers[h := if ok then Approved(operation, entry, authorized, evidence) else Requeueing(operation, entry)];
    }

    method RequeuePendingOperation(ghost h: Id, operation: Id, entry: PendingOperation)
      requires h in handlers && handlers[h] == Requeueing(operation, entry)
      modifies this`pending, this`handlers
      ensures View() == RequeueTaken(old(View()), h)
      ensures h !in handlers && handlers == old(handlers) - {h}
    {
      if operation !in pending { pending := pending[operation := entry]; }
      handlers := handlers - {h};
    }

    // Refuse a stale approval, or execute if there is a transport.
    method FinishApproved(
      ghost h: Id, operation: Id, entry: PendingOperation, authorized: bool, evidence: Option<Evidence>, connected: bool, w: Write)
      requires h in handlers && handlers[h] == Approved(operation, entry, authorized, evidence)
      modifies this`audit, this`calls, this`handlers
      ensures View() == ApprovalFinish(old(View()), h, connected, w)
      ensures handlers == if authorized && connected then old(handlers)[h := Executed(operation)] else old(handlers) - {h}
    {
      if !authorized {
        audit := UpdateExecution(audit, operation, Unexecuted("POLICY_REVALIDATION_DENIED"), w);
        handlers := handlers - {h};
      } else if connected {
        calls := calls + [CoreCall(entry.request, entry.capability, entry.risk, true, evidence)];
        handlers := handlers[h := Executed(operation)];
      } else {
        handlers := handlers - {h};
      }
    }

    // From the recorded decision to the end.
    method ExecuteApproved(
      ghost h: Id, operation: Id, entry: PendingOperation, authorized: bool, evidence: Option<Evidence>, connected: bool,
      denied: Write, core: CoreResult, report: Write)
      requires h in handlers && handlers[h] == Approved(operation, entry, authorized, evidence)
      modifies this`audit, this`calls, this`handlers
      ensures View() == Report(ApprovalFinish(old(View()), h, connected, denied), h, core, report)
      ensures h !in handlers
    {
      ghost var s4 := ApprovalFinish(View(), h, connected, denied);
      FinishApproved(h, operation, entry, authorized, evidence, connected, denied);
      assert View() == s4;
      if authorized && connected {
        ReportOutcome(h, operation, core, report);
      } else {
        IdleFinish(s4, h, connected, denied, core, report);
      }
    }

    method ApprovePendingOperation(
      ghost h: Id, operation: Id, fs: FileSystem, now: Time, decided: Write, connected: bool, denied: Write,
      core: CoreResult, report: Write)
      returns (r: Result<(), HandlerError>)
      requires Valid() && h !in handlers
      modifies this
      ensures View() == HandledApproval(env, old(View()), h, operation, fs, now, decided, connected, denied, core, report)
      ensures h !in handlers
      ensures r == Err(NoSuchOperation) <==> operation !in old(pending)
      ensures operation in old(pending) ==>
                && (r == Err(AuditPersistence) <==> !(decided.Stored? && operation in old(audit)))
                && (r == Ok(()) <==>
                    && decided.Stored? && operation in old(audit)
                    && Stands(env, old(View()), old(pending)[operation], fs, now))
    {
      ghost var s2 := RevalidateTaken(env, TakeApproval(View(), h, operation), h, fs, now);
      var taken := TakeAndRevalidate(h, operation, fs, now);
      assert View() == s2;
      if taken.None? {
        IdleApproval(env, s2, h, fs, now, decided, connected, denied, core, report);
        return Err(NoSuchOperation);
      }
      var (entry, authorized, evidence) := taken.value;
      var ok := RecordApproval(h, operation, entry, authorized, evidence, decided);
      ghost var s3 := ApprovalWrite(s2, h, decided);
      assert View() == s3;
      if !ok {
        RequeuePendingOperation(h, operation, entry);
        IdleFinish(RequeueTaken(s3, h), h, connected, denied, core, report);
        return Err(AuditPersistence);
      }
      assert RequeueTaken(s3, h) == s3;
      ExecuteApproved(h, operation, entry, authorized, evidence, connected, denied, core, report);
      return if authorized then Ok(()) else Err(NoLongerAuthorized);
    }

    method TakeDenied(ghost h: Id, operation: Id)
      requires h !in handlers && operation in pending
      modifies this`pending, this`handlers
      ensures View() == TakeDenial(old(View()), h, operation)
      ensures handlers == old(handlers)[h := Denying(operation, old(pending)[operation])]
    {
      handlers := handlers[h := Denying(operation, pending[operation])];
      pending := pending - {operation};
    }

    method RecordDenial(ghost h: Id, operation: Id, ghost entry: PendingOperation, w: Write) returns (ok: bool)
      requires h in handlers && handlers[h] == Denying(operation, entry)
      modifies this`audit, this`handlers
      ensures View() == DenialWrite(old(View()), h, w)
      ensures handlers == old(handlers)[h := DenialRecorded(operation)]
      ensures ok <==> w.Stored? && operation in old(audit)
    {
      var written := UpdateApproval(audit, operation, Denied, w);
      audit := written.0;
      handlers := handlers[h := DenialRecorded(operation)];
      ok := written.1;
    }

    method CloseDenied(ghost h: Id, operation: Id, w: Write)
      requires h in handlers && handlers[h] == DenialRecorded(operation)
      modifies this`audit, this`handlers
      ensures View() == DenialFinish(old(View()), h, w)
      ensures handlers == old(handlers) - {h}
    {
      audit := UpdateExecution(audit, operation, Unexecuted("DENIED_BY_USER"), w);
      handlers := handlers - {h};
    }

    method DenyPendingOperation(ghost h: Id, operation: Id, decided: Write, finished: Write) returns (r: Result<(), HandlerError>)
      requires h !in handlers
      modifies this`pending, this`audit, this`handlers
      ensures View() == HandledDenial(old(View()), h, operation, decided, finished)
      ensures handlers == old(handlers) && pending == old(pending) - {operation}
      ensures r == Err(NoSuchOperation) <==> operation !in old(pending)
      ensures operation in old(pending) ==> (r == Ok(()) <==> decided.Stored? && operation in old(audit))
    {
      if operation !in pending { return Err(NoSuchOperation); }
      ghost var entry := pending[operation];
      TakeDenied(h, operation);
      var ok := RecordDenial(h, operation, entry, decided);
      CloseDenied(h, operation, finished);
      assert handlers == old(handlers);
      return if ok then Ok(()) else Err(AuditPersistence);
    }

    // One local decision: the grant is saved, then the row is mirrored, then the sweep is due.
    method SaveDecided(ghost h: Id, subject: Id, next: AccessGrant, row: Option<Session>, mirrored: bool)
      modifies this`sessions, this`handlers, repo
      ensures View() == SaveDecision(old(View()), h, subject, next, row, mirrored)
    {
      repo.SaveGrant(next);
      if row.Some? {
        if !mirrored { return; }
        sessions := sessions[subject := row.value];
      }
      if next.status.Revoked? { handlers := handlers[h := Invalidating(subject)]; }
    }

    method DecideSession(ghost h: Id, subject: Id, decision: S.SessionEvent, mirrored: bool, now: Time)
      returns (r: Result<(), DecisionError>)
      requires Valid() && h !in handlers
      modifies this`sessions, this`handlers, repo
      ensures View() == DecideOn(old(View()), h, subject, decision, mirrored, now)
      ensures r.Err? && r.error != MirrorLost ==> View() == old(View())
    {
      var grant := ResolveGrant(subject);
      if grant.None? { return Err(SessionNotFound); }
      var event := S.AuthorizationEventFor(decision);
      if event.None? { return Err(NoAuthorizationDecision); }
      var next := GM.Transition(grant.value, event.value, now);
      if next.Err? { return Err(Refused(next.error)); }
      var row := MirroredRow(sessions, subject, decision, now);
      SaveDecided(h, subject, next.value, row, mirrored);
      return if row.Some? && !mirrored then Err(MirrorLost) else Ok(());
    }

    // Revocation's sweep: every queued operation of the subject leaves the queue at once.
    method SweepPending(ghost h: Id, subject: Id) returns (gone: set<Id>)
      requires h in handlers && handlers[h] == Invalidating(subject)
      modifies this`pending, this`handlers
      ensures View() == InvalidateTaken(old(View()), h)
      ensures handlers == old(handlers)[h := Finalizing(gone)]
      ensures gone <= old(pending).Keys && pending == old(pending) - gone
      ensures forall op :: op in pending <==> op in old(pending) && old(pending)[op].request.sessionId != subject
    {
      gone := set op | op in pending && pending[op].request.sessionId == subject;
      pending := pending - gone;
      handlers := handlers[h := Finalizing(gone)];
    }

    method CloseRow(ghost h: Id, op: Id, ghost todo: set<Id>, w: Write)
      requires h in handlers && handlers[h] == Finalizing(todo) && op in todo
      modifies this`audit, this`handlers
      ensures View() == FinalizeOne(old(View()), h, op, w)
      ensures handlers == old(handlers)[h := Finalizing(todo - {op})]
    {
      audit := UpdateExecution(audit, op, Unexecuted("SESSION_REVOKED"), w);
      handlers := handlers[h := Finalizing(todo - {op})];
    }

    // Then each swept row is closed, in some order, by a write of its own that may be lost.
    method InvalidatePendingForSession(ghost h: Id, subject: Id, writes: Id -> Write) returns (removed: nat, ghost order: seq<Id>)
      requires h in handlers && handlers[h] == Invalidating(subject)
      modifies this`pending, this`audit, this`handlers
      ensures removed == |old(pending)| - |pending|
      ensures forall op :: op in order <==> op in old(pending) && op !in pending
      ensures View() == FinalizeAll(InvalidateTaken(old(View()), h), h, order, writes)
      ensures forall op :: op in pending <==> op in old(pending) && old(pending)[op].request.sessionId != subject
    {
      var gone := SweepPending(h, subject);
      Counted(old(pending), gone);
      ghost var s1 := View();
      removed, order := |gone|, [];
      var todo := gone;
      while todo != {}
        invariant todo <= gone
        invariant forall op :: op in order <==> op in gone && op !in todo
        invariant pending == s1.pending
        invariant View() == FinalizeAll(s1, h, order, writes)
        invariant h in handlers && handlers[h] == Finalizing(todo)
        decreases |todo|
      {
        var op :| op in todo;
        FinalizeNext(s1, h, order, op, writes);
        CloseRow(h, op, todo, writes(op));
        order := order + [op];
        todo := todo - {op};
      }
    }

    // Binding, workspace and duplicate checks; None when the request is dropped.
    method CheckSessionRequest(access: AccessRequest, sessionId: Id, grantId: Id, sessionNow: Time, now: Time)
      returns (checked: Option<(AccessGrant, Session)>)
      requires Valid() && request.NoRequest? && UnusedIds(View(), sessionId, grantId)
      modifies this`request
      ensures View() == CheckRequest(env, old(View()), access, sessionId, grantId, sessionNow, now)
      ensures request == if checked.Some? then Checked(checked.value.0, checked.value.1) else NoRequest
    {
      checked := None;
      if access.actor.Some? && !access.actor.value.HasRequiredBindingFields() { return; }
      if access.claimedDevice.None? || env.device != access.claimedDevice { return; }
      if access.workspaceId !in workspaces { return; }
      var ttl := EffectiveTtl(env.ttl, access.profile, access.ttlMinutes);
      var row := S.RequestedSession(
        sessionId, access.claimedDevice.value, access.name, {access.workspaceId}, access.profile, access.taskScope,
        60 * ttl as int, sessionNow);
      var grant := Requested(
        GrantRequest(sessionId, access.claimedDevice.value, PrincipalFor(access.name, access.actor), {access.workspaceId},
                     access.profile, access.taskScope, Standing, 60 * ttl as int),
        grantId, now);
      var live := repo.FindLiveRequest(grant);
      if live.Some? { return; }
      checked := Some((grant, row));
      request := Checked(grant, row);
    }

    method SaveRow(ghost grant: AccessGrant, row: Session, w: Write) returns (ok: bool)
      requires request == Checked(grant, row)
      modifies this`sessions, this`request
      ensures View() == RowWrite(old(View()), w)
      ensures ok <==> w.Stored? && request == RowSaved(grant)
      ensures !ok ==> request.NoRequest?
    {
      if !w.Lost? { sessions := sessions[row.sessionId := row]; }
      ok := w.Stored?;
      request := if ok then RowSaved(grant) else NoRequest;
    }

    method SaveRequested(grant: AccessGrant, w: Write)
      requires request == RowSaved(grant)
      modifies this`request, repo
      ensures View() == GrantWrite(old(View()), w)
    {
      if !w.Lost? { repo.SaveGrant(grant); }
      request := NoRequest;
    }

    // Generated ids are unused; a request that is already live changes nothing.
    method HandleSessionRequest(
      access: AccessRequest, sessionId: Id, grantId: Id, sessionNow: Time, now: Time, rowWrite: Write, grantWrite: Write)
      requires Valid() && request.NoRequest? && UnusedIds(View(), sessionId, grantId)
      modifies this`sessions, this`request, repo
      ensures View() == RequestAccess(env, old(View()), access, sessionId, grantId, sessionNow, now, rowWrite, grantWrite)
      ensures request.NoRequest?
    {
      var checked := CheckSessionRequest(access, sessionId, grantId, sessionNow, now);
      if checked.None? { return; }
      var ok := SaveRow(checked.value.0, checked.value.1, rowWrite);
      if !ok { return; }
      SaveRequested(checked.value.0, grantWrite);
    }
  }

  datatype DecisionError = SessionNotFound | NoAuthorizationDecision | Refused(refusal: GM.GrantError) | MirrorLost

  ghost function FinalizeAll(s: State, h: Id, order: seq<Id>, writes: Id -> Write): State
    decreases |order|
  {
    if order == [] then s
    else
      var n := |order| - 1;
      FinalizeOne(FinalizeAll(s, h, order[..n], writes), h, order[n], writes(order[n]))
  }

  lemma FinalizeNext(s: State, h: Id, order: seq<Id>, op: Id, writes: Id -> Write)
    ensures FinalizeAll(s, h, order + [op], writes) == FinalizeOne(FinalizeAll(s, h, order, writes), h, op, writes(op))
  {
    assert (order + [op])[..|order|] == order;
  }

  lemma Counted<T>(m: map<Id, T>, gone: set<Id>)
    requires gone <= m.Keys
    ensures |m - gone| == |m| - |gone|
  {
    assert (m - gone).Keys == m.Keys - gone;
    assert |m - gone| == |(m - gone).Keys| && |m| == |m.Keys|;
  }

  // The same handlers as runs of the interleaved system ------------------------------------------------------------

  lemma RunExtends(env: Env, s: State, events: seq<Event>, event: Event)
    requires env.Valid() && s.WellKeyed()
    ensures Run(env, s, events + [event]) == Apply(env, Run(env, s, events), event)
  {
    assert (events + [event])[..|events|] == events;
  }

  /** The operation handler, uninterrupted, is a run of the interleaved system, so everything proved of all
      runs holds of it. */
  lemma OperationIsARun(
    env: Env, s: State, h: Id, request: OperationRequest, claimed: Option<Id>, actor: Option<VerifiedPrincipal>,
    fs: FileSystem, now: Time, record: Write, core: CoreResult, report: Write)
    requires env.Valid() && s.WellKeyed()
    ensures HandledOperation(env, s, h, request, claimed, actor, fs, now, record, core, report) ==
            Run(env, s, [OperationArrives(h, request, claimed, actor, fs, now)] + [WriteAudit(h, record)] + [Dispatch(h)]
                        + [ReportExecution(h, core, report)])
  {
    var e1 := [OperationArrives(h, request, claimed, actor, fs, now)];
    RunOfOne(env, s, e1[0]);
    RunExtends(env, s, e1, WriteAudit(h, record));
    RunExtends(env, s, e1 + [WriteAudit(h, record)], Dispatch(h));
    RunExtends(env, s, e1 + [WriteAudit(h, record)] + [Dispatch(h)], ReportExecution(h, core, report));
  }

  lemma ApprovalIsARun(
    env: Env, s: State, h: Id, operation: Id, fs: FileSystem, now: Time, decided: Write, connected: bool, denied: Write,
    core: CoreResult, report: Write)
    requires env.Valid() && s.WellKeyed()
    ensures HandledApproval(env, s, h, operation, fs, now, decided, connected, denied, core, report) ==
            Run(env, s, [TakeForApproval(h, operation)] + [Revalidate(h, fs, now)] + [WriteApproval(h, decided)] + [Requeue(h)]
                        + [FinishApproval(h, connected, denied)] + [ReportExecution(h, core, report)])
  {
    var e3 := [TakeForApproval(h, operation)] + [Revalidate(h, fs, now)] + [WriteApproval(h, decided)];
    RunOfOne(env, s, TakeForApproval(h, operation));
    RunExtends(env, s, [TakeForApproval(h, operation)], Revalidate(h, fs, now));
    RunExtends(env, s, [TakeForApproval(h, operation)] + [Revalidate(h, fs, now)], WriteApproval(h, decided));
    RunExtends(env, s, e3, Requeue(h));
    RunExtends(env, s, e3 + [Requeue(h)], FinishApproval(h, connected, denied));
    RunExtends(env, s, e3 + [Requeue(h)] + [FinishApproval(h, connected, denied)], ReportExecution(h, core, report));
  }
}
