/** What every run of the pipeline keeps: durable evidence before every core call, and at most one
    holder for every operation. */
module PipelineSafety {
  import opened Prelude
  import opened Authorization
  import opened Risk
  import opened Policy
  import opened GrantStore
  import opened Daemon
  import GM = GrantMachine
  import S = Sessions

  ghost predicate Called(calls: seq<CoreCall>, operation: Id) {
    exists i | 0 <= i < |calls| :: calls[i].request.operationId == operation
  }

  // The operation a handler may still queue, decide or execute.
  function HeldOperation(h: Handler): (r: Option<Id>) {
    match h
    case Recorded(request, decision, _) => if decision.Deny? then None else Some(request.operationId)
    case Revalidating(operation, _) => Some(operation)
    case Revalidated(operation, _, _, _) => Some(operation)
    case Approved(operation, _, _, _) => Some(operation)
    case Requeueing(operation, _) => Some(operation)
    case Denying(operation, _) => Some(operation)
    case _ => None
  }

  ghost predicate RowNames(row: AuditRow, request: OperationRequest) {
    row.sessionId == request.sessionId && row.workspaceId == request.workspaceId && row.tool == request.tool
  }

  // The capability and effective risk an operation was judged with are on record.
  ghost predicate RowShows(row: AuditRow, capability: Capability, risk: RiskAssessment) {
    row.capability == Some(capability) && row.risk == Some(risk.effective)
  }

  ghost predicate EntrySound(audit: Audit, calls: seq<CoreCall>, operation: Id, entry: PendingOperation) {
    && entry.request.operationId == operation
    && operation in audit && RowNames(audit[operation], entry.request)
    && RowShows(audit[operation], entry.capability, entry.risk)
    && audit[operation].result == ResultRequireApproval
    && !Called(calls, operation)
  }

  ghost predicate HandlerSound(audit: Audit, calls: seq<CoreCall>, h: Handler) {
    match h
    case Recorded(request, decision, _) =>
      !decision.Deny? ==>
        && request.operationId in audit && RowNames(audit[request.operationId], request)
        && RowShows(audit[request.operationId], decision.capability, decision.risk)
        && audit[request.operationId].result == ResultFor(decision)
        && !Called(calls, request.operationId)
    case Revalidating(operation, entry) => EntrySound(audit, calls, operation, entry)
    case Revalidated(operation, entry, _, _) => EntrySound(audit, calls, operation, entry)
    case Approved(operation, entry, _, _) =>
      EntrySound(audit, calls, operation, entry) && audit[operation].approval == Some(AllowOnce)
    case Requeueing(operation, entry) => EntrySound(audit, calls, operation, entry)
    case Denying(operation, entry) => EntrySound(audit, calls, operation, entry)
    case _ => true
  }

  // The durable proof a core call rests on.
  ghost predicate Evidenced(audit: Audit, call: CoreCall) {
    var operation := call.request.operationId;
    && operation in audit && RowNames(audit[operation], call.request)
    && RowShows(audit[operation], call.capability, call.risk)
    && if call.approved then audit[operation].result == ResultRequireApproval && audit[operation].approval == Some(AllowOnce)
       else audit[operation].result == ResultAllow
  }

  ghost predicate OneHolder(s: State) {
    && (forall h | h in s.handlers && HeldOperation(s.handlers[h]).Some? ::
          HeldOperation(s.handlers[h]).value !in s.pending)
    && (forall a, b | a in s.handlers && b in s.handlers && a != b && HeldOperation(s.handlers[a]).Some? ::
          HeldOperation(s.handlers[a]) != HeldOperation(s.handlers[b]))
  }

  ghost predicate CalledOnce(calls: seq<CoreCall>) {
    forall i, j | 0 <= i < j < |calls| :: calls[i].request.operationId != calls[j].request.operationId
  }

  ghost predicate Safe(s: State) {
    && (forall operation | operation in s.pending :: EntrySound(s.audit, s.calls, operation, s.pending[operation]))
    && (forall h | h in s.handlers :: HandlerSound(s.audit, s.calls, s.handlers[h]))
    && (forall i | 0 <= i < |s.calls| :: Evidenced(s.audit, s.calls[i]))
    && OneHolder(s)
    && CalledOnce(s.calls)
  }

  // Steps -------------------------------------------------------------------------------------------------

  // A step that keeps every verdict, adds no call and only drops or replaces one handler by one holding
  // nothing more.
  ghost predicate SameVerdicts(a: Audit, b: Audit) {
    forall operation | operation in a ::
      && operation in b
      && b[operation] == a[operation].(execution := b[operation].execution)
  }

  lemma VerdictsKeepSound(s: State, audit: Audit)
    requires Safe(s) && SameVerdicts(s.audit, audit)
    ensures Safe(s.(audit := audit))
  {
    forall h | h in s.handlers ensures HandlerSound(audit, s.calls, s.handlers[h]) {
      assert HandlerSound(s.audit, s.calls, s.handlers[h]);
    }
  }

  lemma ExecutionKeepsSafe(s: State, operation: Id, execution: Execution, w: Write)
    requires Safe(s)
    ensures Safe(s.(audit := UpdateExecution(s.audit, operation, execution, w)))
  {
    VerdictsKeepSound(s, UpdateExecution(s.audit, operation, execution, w));
  }

  // Dropping a handler, or replacing it by one that holds nothing.
  lemma ReleaseKeepsSafe(s: State, h: Id)
    requires Safe(s)
    ensures Safe(s.(handlers := s.handlers - {h}))
    ensures forall k: Handler | HeldOperation(k).None? && HandlerSound(s.audit, s.calls, k) ::
              Safe(s.(handlers := s.handlers[h := k]))
  {
  }

  lemma CalledGrows(calls: seq<CoreCall>, call: CoreCall, operation: Id)
    ensures Called(calls + [call], operation) <==> Called(calls, operation) || operation == call.request.operationId
  {
    var all := calls + [call];
    if Called(calls, operation) {
      var i :| 0 <= i < |calls| && calls[i].request.operationId == operation;
      assert all[i].request.operationId == operation;
    }
    if operation == call.request.operationId { assert all[|calls|].request.operationId == operation; }
  }

  // The holder of an operation makes its one core call.
  lemma CallKeepsSafe(s: State, h: Id, call: CoreCall)
    requires Safe(s) && h in s.handlers && Evidenced(s.audit, call)
    requires HeldOperation(s.handlers[h]) == Some(call.request.operationId)
    ensures Safe(s.(calls := s.calls + [call], handlers := s.handlers[h := Executed(call.request.operationId)]))
  {
    var operation := call.request.operationId;
    var calls, handlers := s.calls + [call], s.handlers[h := Executed(operation)];
    assert HandlerSound(s.audit, s.calls, s.handlers[h]);
    assert !Called(s.calls, operation);
    forall op | op in s.pending ensures EntrySound(s.audit, calls, op, s.pending[op]) {
      CalledGrows(s.calls, call, op);
    }
    forall k | k in handlers ensures HandlerSound(s.audit, calls, handlers[k]) {
      if k != h {
        assert HandlerSound(s.audit, s.calls, s.handlers[k]);
        if HeldOperation(s.handlers[k]).Some? { CalledGrows(s.calls, call, HeldOperation(s.handlers[k]).value); }
      }
    }
    forall i, j | 0 <= i < j < |calls| ensures calls[i].request.operationId != calls[j].request.operationId {
      assert i < |s.calls| && Called(s.calls, calls[i].request.operationId);
    }
  }

  // The holder of an operation hands it to the queue.
  lemma QueueKeepsSafe(s: State, h: Id, entry: PendingOperation)
    requires Safe(s) && h in s.handlers
    requires HeldOperation(s.handlers[h]) == Some(entry.request.operationId)
    requires EntrySound(s.audit, s.calls, entry.request.operationId, entry)
    ensures Safe(s.(pending := s.pending[entry.request.operationId := entry], handlers := s.handlers - {h}))
  {
  }

  lemma ArriveSafe(
    env: Env, s: State, h: Id, request: OperationRequest, claimed: Option<Id>, actor: Option<VerifiedPrincipal>,
    fs: Boundary.FileSystem, now: Time)
    requires env.Valid() && s.WellKeyed() && Safe(s)
    ensures Safe(Arrive(env, s, h, request, claimed, actor, fs, now))
  {
  }

  lemma AuditWriteSafe(s: State, h: Id, w: Write)
    requires Safe(s)
    ensures Safe(AuditWrite(s, h, w))
  {
    if h in s.handlers && s.handlers[h].Evaluated? {
      var Evaluated(request, decision, evidence) := s.handlers[h];
      var audit := RecordRow(s.audit, request.operationId, RowFor(request, decision), w).0;
      NewRowKeepsSafe(s, audit);
      ReleaseKeepsSafe(s.(audit := audit), h);
      if AuditWrite(s, h, w).handlers != s.handlers - {h} {
        RecordingKeepsSafe(s, h, audit, Recorded(request, decision, evidence));
      }
    }
  }

  lemma NewRowKeepsSafe(s: State, audit: Audit)
    requires Safe(s) && forall operation | operation in s.audit :: operation in audit && audit[operation] == s.audit[operation]
    ensures Safe(s.(audit := audit))
  {
    VerdictsKeepSound(s, audit);
  }

  // A row for an operation nobody has recorded makes its handler the holder.
  lemma RecordingKeepsSafe(s: State, h: Id, audit: Audit, k: Handler)
    requires Safe(s) && h in s.handlers && Safe(s.(audit := audit)) && k.Recorded?
    requires k.request.operationId !in s.audit && HandlerSound(audit, s.calls, k)
    ensures Safe(s.(audit := audit, handlers := s.handlers[h := k]))
  {
    forall b | b in s.handlers && HeldOperation(s.handlers[b]).Some?
      ensures HeldOperation(s.handlers[b]).value != k.request.operationId
    {
      assert HandlerSound(s.audit, s.calls, s.handlers[b]);
    }
  }

  lemma DispatchSafe(s: State, h: Id)
    requires Safe(s)
    ensures Safe(DispatchRecorded(s, h))
  {
    if h in s.handlers && s.handlers[h].Recorded? {
      var Recorded(request, decision, evidence) := s.handlers[h];
      assert HandlerSound(s.audit, s.calls, s.handlers[h]);
      match decision
      case Allow(capability, risk) => CallKeepsSafe(s, h, CoreCall(request, capability, risk, false, evidence));
      case Deny(_) => ReleaseKeepsSafe(s, h);
      case RequireApproval(capability, risk) => QueueKeepsSafe(s, h, PendingOperation(request, capability, risk));
    }
  }

  lemma TakeApprovalSafe(s: State, h: Id, operation: Id)
    requires Safe(s)
    ensures Safe(TakeApproval(s, h, operation))
  {
  }

  // The holder of an operation writes a decision on its row and moves on.
  lemma HeldUpdateSafe(s: State, h: Id, operation: Id, audit: Audit, k: Handler)
    requires Safe(s) && h in s.handlers && HeldOperation(s.handlers[h]) == Some(operation) && operation in s.audit
    requires operation in audit && audit == s.audit[operation := audit[operation]]
    requires audit[operation] == s.audit[operation].(approval := audit[operation].approval)
    requires HandlerSound(audit, s.calls, k) && (HeldOperation(k).None? || HeldOperation(k) == Some(operation))
    ensures Safe(s.(audit := audit, handlers := s.handlers[h := k]))
  {
    assert HandlerSound(s.audit, s.calls, s.handlers[h]);
    assert !Called(s.calls, operation) && operation !in s.pending;
    forall i | 0 <= i < |s.calls| ensures Evidenced(audit, s.calls[i]) {
      assert s.calls[i].request.operationId != operation;
    }
  }

  lemma ApprovalWriteSafe(s: State, h: Id, w: Write)
    requires Safe(s)
    ensures Safe(ApprovalWrite(s, h, w))
  {
    if h in s.handlers && s.handlers[h].Revalidated? {
      var operation := s.handlers[h].operation;
      assert HandlerSound(s.audit, s.calls, s.handlers[h]);
      HeldUpdateSafe(s, h, operation, UpdateApproval(s.audit, operation, AllowOnce, w).0, ApprovalWrite(s, h, w).handlers[h]);
    }
  }

  lemma RequeueSafe(s: State, h: Id)
    requires Safe(s)
    ensures Safe(RequeueTaken(s, h))
  {
  }

  lemma ApprovalFinishSafe(s: State, h: Id, connected: bool, w: Write)
    requires Safe(s)
    ensures Safe(ApprovalFinish(s, h, connected, w))
  {
    if h in s.handlers && s.handlers[h].Approved? {
      var Approved(operation, entry, authorized, evidence) := s.handlers[h];
      assert HandlerSound(s.audit, s.calls, s.handlers[h]);
      ReleaseKeepsSafe(s, h);
      if !authorized {
        ExecutionKeepsSafe(s.(handlers := s.handlers - {h}), operation, Unexecuted("POLICY_REVALIDATION_DENIED"), w);
      } else if connected {
        CallKeepsSafe(s, h, CoreCall(entry.request, entry.capability, entry.risk, true, evidence));
      }
    }
  }

  lemma ReportSafe(s: State, h: Id, core: CoreResult, w: Write)
    requires Safe(s)
    ensures Safe(Report(s, h, core, w))
  {
    if h in s.handlers && s.handlers[h].Executed? {
      ReleaseKeepsSafe(s, h);
      ExecutionKeepsSafe(s.(handlers := s.handlers - {h}), s.handlers[h].operation, ExecutionOf(core), w);
    }
  }

  lemma RevalidateSafe(env: Env, s: State, h: Id, fs: Boundary.FileSystem, now: Time)
    requires env.Valid() && s.WellKeyed() && Safe(s)
    ensures Safe(RevalidateTaken(env, s, h, fs, now))
  {
    if h in s.handlers && s.handlers[h].Revalidating? {
      assert HandlerSound(s.audit, s.calls, s.handlers[h]);
    }
  }

  lemma TakeDenialSafe(s: State, h: Id, operation: Id)
    requires Safe(s)
    ensures Safe(TakeDenial(s, h, operation))
  {
  }

  lemma DenialWriteSafe(s: State, h: Id, w: Write)
    requires Safe(s)
    ensures Safe(DenialWrite(s, h, w))
  {
    if h in s.handlers && s.handlers[h].Denying? {
      var operation := s.handlers[h].operation;
      assert HandlerSound(s.audit, s.calls, s.handlers[h]);
      HeldUpdateSafe(s, h, operation, UpdateApproval(s.audit, operation, Denied, w).0, DenialRecorded(operation));
    }
  }

  lemma DenialFinishSafe(s: State, h: Id, w: Write)
    requires Safe(s)
    ensures Safe(DenialFinish(s, h, w))
  {
    if h in s.handlers && s.handlers[h].DenialRecorded? {
      ReleaseKeepsSafe(s, h);
      ExecutionKeepsSafe(s.(handlers := s.handlers - {h}), s.handlers[h].operation, Unexecuted("DENIED_BY_USER"), w);
    }
  }

  lemma InvalidateSafe(s: State, h: Id)
    requires Safe(s)
    ensures Safe(InvalidateTaken(s, h))
  {
  }

  lemma StageKeepsSafe(s: State, h: Id, k: Handler)
    requires Safe(s) && HeldOperation(k).None? && HandlerSound(s.audit, s.calls, k)
    ensures Safe(s.(handlers := s.handlers[h := k]))
  {
    ReleaseKeepsSafe(s, h);
  }

  lemma FinalizeSafe(s: State, h: Id, operation: Id, w: Write)
    requires Safe(s)
    ensures Safe(FinalizeOne(s, h, operation, w))
  {
    if h in s.handlers && s.handlers[h].Finalizing? && operation in s.handlers[h].operations {
      var next := Finalizing(s.handlers[h].operations - {operation});
      StageKeepsSafe(s, h, next);
      ExecutionKeepsSafe(s.(handlers := s.handlers[h := next]), operation, Unexecuted("SESSION_REVOKED"), w);
    }
  }

  lemma DecideSafe(s: State, h: Id, subject: Id, decision: S.SessionEvent, mirrored: bool, now: Time)
    requires s.WellKeyed() && Safe(s)
    ensures Safe(DecideOn(s, h, subject, decision, mirrored, now))
  {
    DecideTouches(s, h, subject, decision, mirrored, now);
    InvalidationStartsSafe(s, DecideOn(s, h, subject, decision, mirrored, now), h, subject);
  }

  lemma InvalidationStartsSafe(s: State, t: State, h: Id, subject: Id)
    requires Safe(s) && t.audit == s.audit && t.pending == s.pending && t.calls == s.calls
    requires t.handlers == s.handlers || t.handlers == s.handlers[h := Invalidating(subject)]
    ensures Safe(t)
  {
  }

  // A local decision changes no audit row, queue entry or call, and starts at most one invalidation.
  lemma DecideTouches(s: State, h: Id, subject: Id, decision: S.SessionEvent, mirrored: bool, now: Time)
    requires s.WellKeyed()
    ensures var t := DecideOn(s, h, subject, decision, mirrored, now);
            && t.audit == s.audit && t.pending == s.pending && t.calls == s.calls && t.workspaces == s.workspaces
            && (t.handlers == s.handlers || (h !in s.handlers && t.handlers == s.handlers[h := Invalidating(subject)]))
  {
    var grant := Authority(s.grants, s.sessions, subject);
    var event := S.AuthorizationEventFor(decision);
    if h !in s.handlers && grant.Some? && event.Some? {
      var next := GM.Transition(grant.value, event.value, now);
      if next.Ok? { SaveTouches(s, h, subject, next.value, MirroredRow(s.sessions, subject, decision, now), mirrored); }
    }
  }

  lemma SaveTouches(s: State, h: Id, subject: Id, next: AccessGrant, row: Option<Session>, mirrored: bool)
    ensures var t := SaveDecision(s, h, subject, next, row, mirrored);
            && t.audit == s.audit && t.pending == s.pending && t.calls == s.calls && t.workspaces == s.workspaces
            && (t.handlers == s.handlers || t.handlers == s.handlers[h := Invalidating(subject)])
  {
  }

  lemma ApprovalStepSafe(env: Env, s: State, event: Event)
    requires env.Valid() && s.WellKeyed() && Safe(s)
    requires event.TakeForApproval? || event.Revalidate? || event.WriteApproval? || event.Requeue? || event.FinishApproval?
    ensures Safe(Apply(env, s, event))
  {
    match event
    case TakeForApproval(h, operation) => TakeApprovalSafe(s, h, operation);
    case Revalidate(h, fs, now) => RevalidateSafe(env, s, h, fs, now);
    case WriteApproval(h, w) => ApprovalWriteSafe(s, h, w);
    case Requeue(h) => RequeueSafe(s, h);
    case FinishApproval(h, connected, w) => ApprovalFinishSafe(s, h, connected, w);
  }

  lemma RemoteStepSafe(env: Env, s: State, event: Event)
    requires env.Valid() && s.WellKeyed() && Safe(s)
    requires event.OperationArrives? || event.WriteAudit? || event.Dispatch? || event.ReportExecution?
    ensures Safe(Apply(env, s, event))
  {
    match event
    case OperationArrives(h, request, claimed, actor, fs, now) => ArriveSafe(env, s, h, request, claimed, actor, fs, now);
    case WriteAudit(h, w) => AuditWriteSafe(s, h, w);
    case Dispatch(h) => DispatchSafe(s, h);
    case ReportExecution(h, core, w) => ReportSafe(s, h, core, w);
  }

  lemma RequestStepSafe(env: Env, s: State, event: Event)
    requires env.Valid() && s.WellKeyed() && Safe(s) && OfRequest(event)
    ensures Safe(Apply(env, s, event))
  {
  }

  lemma StepSafe(env: Env, s: State, event: Event)
    requires env.Valid() && s.WellKeyed() && Safe(s)
    ensures Safe(Apply(env, s, event))
  {
    match event
    case TakeForDenial(h, operation) => TakeDenialSafe(s, h, operation);
    case WriteDenial(h, w) => DenialWriteSafe(s, h, w);
    case FinishDenial(h, w) => DenialFinishSafe(s, h, w);
    case DecideSession(h, subject, decision, mirrored, now) => DecideSafe(s, h, subject, decision, mirrored, now);
    case InvalidatePending(h) => InvalidateSafe(s, h);
    case FinalizeInvalidated(h, operation, w) => FinalizeSafe(s, h, operation, w);
    case WorkspacesChange(_) =>
    case Restart =>
    case _ =>
      if OfRequest(event) {
        RequestStepSafe(env, s, event);
      } else if event.OperationArrives? || event.WriteAudit? || event.Dispatch? || event.ReportExecution? {
        RemoteStepSafe(env, s, event);
      } else {
        ApprovalStepSafe(env, s, event);
      }
  }

  lemma {:induction false} RunSafe(env: Env, s: State, events: seq<Event>)
    requires env.Valid() && Booted(s)
    ensures Safe(Run(env, s, events))
    decreases |events|
  {
    if events != [] {
      var init := events[..|events| - 1];
      RunSafe(env, s, init);
      StepSafe(env, Run(env, s, init), events[|events| - 1]);
    }
  }
}
