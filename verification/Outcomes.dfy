/** What the handlers bring about, not only what they keep from happening: which operation runs, waits or is
    refused, and what the audit row then says. */
module Outcomes {
  import opened Prelude
  import opened Authorization
  import opened Boundary
  import opened Policy
  import opened GrantStore
  import opened Daemon
  import opened PipelineSafety
  import opened Provenance
  import opened Gateway

  // The row records how the core call ended.
  ghost predicate ShowsCore(execution: Execution, core: CoreResult) {
    match core
    case Returned(millis) => execution.status == Success && execution.errorClass == None && execution.duration == Some(millis)
    case Broke(code, millis) =>
      execution.status == Failed && execution.errorClass == Some(code) && execution.duration == Some(millis)
  }

  // The row says that nothing ran, and why.
  ghost predicate ShowsRefusal(execution: Execution, class_: string) {
    execution.status == Failed && execution.errorClass == Some(class_) && execution.duration == None
  }

  ghost predicate NotYetRun(execution: Execution) {
    execution.status == NotExecuted && execution.errorClass == None && execution.duration == None
  }

  // Rows of other operations are as they were.
  ghost predicate OtherRowsKept(a: Audit, b: Audit, operation: Id) {
    forall op | op != operation :: AgreeAt(a, b, op)
  }

  // Approvals --------------------------------------------------------------------------------------------------

  // The state an approval leaves behind once its decision is on record and the entry still stands or not.
  ghost predicate ApprovedAsQueued(
    s: State, t: State, operation: Id, v: Option<Evidence>, stands: bool, connected: bool, denied: Write, core: CoreResult, report: Write)
    requires operation in s.pending
  {
    var entry := s.pending[operation];
    && t.pending == s.pending - {operation} && t.handlers == s.handlers
    && t.calls == (if stands && connected
                   then s.calls + [CoreCall(entry.request, entry.capability, entry.risk, true, v)] else s.calls)
    && operation in t.audit && t.audit[operation].approval == Some(AllowOnce) && OtherRowsKept(s.audit, t.audit, operation)
    && (stands && connected && !report.Lost? ==> ShowsCore(t.audit[operation].execution, core))
    && (!stands && !denied.Lost? ==> ShowsRefusal(t.audit[operation].execution, "POLICY_REVALIDATION_DENIED"))
  }

  // From the decision on record to the end of the handler.
  lemma FinishOutcome(
    s: State, u: State, h: Id, operation: Id, v: Option<Evidence>, stands: bool, connected: bool,
    denied: Write, core: CoreResult, report: Write)
    requires operation in s.pending && h !in s.handlers && operation in s.audit
    requires u == s.(pending := s.pending - {operation},
                     audit := s.audit[operation := s.audit[operation].(approval := Some(AllowOnce))],
                     handlers := s.handlers[h := Approved(operation, s.pending[operation], stands, v)])
    ensures ApprovedAsQueued(s, Report(ApprovalFinish(u, h, connected, denied), h, core, report), operation, v, stands,
                             connected, denied, core, report)
  {
    assert s.handlers[h := Approved(operation, s.pending[operation], stands, v)] - {h} == s.handlers;
    if stands && connected {
      assert u.handlers[h := Executed(operation)] - {h} == s.handlers;
    }
  }

  /** The outcome of an approval whose decision is written, in every reachable state: with a transport it runs
      exactly the queued entry if and only if, on the grant and workspace stored now, the verdict is still to
      ask approval of the queued capability and risk; the row then shows how the core call ended. Otherwise
      nothing runs and the row is closed as stale. Either way the entry has left the queue. */
  lemma ApprovalOutcome(
    env: Env, s: State, h: Id, operation: Id, fs: FileSystem, now: Time, connected: bool, denied: Write, core: CoreResult, report: Write)
    requires env.Valid() && s.WellKeyed() && Safe(s) && h !in s.handlers && operation in s.pending
    ensures ApprovedAsQueued(
              s, HandledApproval(env, s, h, operation, fs, now, Stored, connected, denied, core, report), operation,
              EvidenceFor(s, s.pending[operation].request, fs, now), Stands(env, s, s.pending[operation], fs, now),
              connected, denied, core, report)
  {
    var entry := s.pending[operation];
    assert EntrySound(s.audit, s.calls, operation, entry);
    var v, stands := EvidenceFor(s, entry.request, fs, now), Stands(env, s, entry, fs, now);
    RejudgedOutcome(env, s, h, operation, fs, now);
    RecordedOutcome(s, h, operation, stands, v);
    FinishOutcome(s, Decided(s, h, operation, stands, v), h, operation, v, stands, connected, denied, core, report);
  }

  // Taken and judged again.
  ghost function Judged(s: State, h: Id, operation: Id, stands: bool, v: Option<Evidence>): State
    requires operation in s.pending
  {
    s.(pending := s.pending - {operation}, handlers := s.handlers[h := Revalidated(operation, s.pending[operation], stands, v)])
  }

  // The decision on record.
  ghost function Decided(s: State, h: Id, operation: Id, stands: bool, v: Option<Evidence>): State
    requires operation in s.pending && operation in s.audit
  {
    s.(pending := s.pending - {operation},
       audit := s.audit[operation := s.audit[operation].(approval := Some(AllowOnce))],
       handlers := s.handlers[h := Approved(operation, s.pending[operation], stands, v)])
  }

  lemma RejudgedOutcome(env: Env, s: State, h: Id, operation: Id, fs: FileSystem, now: Time)
    requires env.Valid() && s.WellKeyed() && h !in s.handlers && operation in s.pending
    ensures RevalidateTaken(env, TakeApproval(s, h, operation), h, fs, now) ==
            Judged(s, h, operation, Stands(env, s, s.pending[operation], fs, now),
                   EvidenceFor(s, s.pending[operation].request, fs, now))
  {
    var entry := s.pending[operation];
    assert s.handlers[h := Revalidating(operation, entry)][h := Revalidated(
             operation, entry, Stands(env, s, entry, fs, now), EvidenceFor(s, entry.request, fs, now))] ==
           s.handlers[h := Revalidated(operation, entry, Stands(env, s, entry, fs, now), EvidenceFor(s, entry.request, fs, now))];
  }

  lemma RecordedOutcome(s: State, h: Id, operation: Id, stands: bool, v: Option<Evidence>)
    requires operation in s.pending && operation in s.audit
    ensures RequeueTaken(ApprovalWrite(Judged(s, h, operation, stands, v), h, Stored), h) == Decided(s, h, operation, stands, v)
  {
    var entry := s.pending[operation];
    assert s.handlers[h := Revalidated(operation, entry, stands, v)][h := Approved(operation, entry, stands, v)] ==
           s.handlers[h := Approved(operation, entry, stands, v)];
  }

  /** An approval whose decision write is not confirmed leaves queue, calls and handlers exactly as they were. */
  lemma UnrecordedApprovalOutcome(
    env: Env, s: State, h: Id, operation: Id, fs: FileSystem, now: Time, decided: Write, connected: bool, denied: Write,
    core: CoreResult, report: Write)
    requires env.Valid() && s.WellKeyed() && h !in s.handlers && operation in s.pending && !decided.Stored?
    ensures var t := HandledApproval(env, s, h, operation, fs, now, decided, connected, denied, core, report);
            t.pending == s.pending && t.calls == s.calls && t.handlers == s.handlers
  {
    var entry := s.pending[operation];
    var v, stands := EvidenceFor(s, entry.request, fs, now), Stands(env, s, entry, fs, now);
    RejudgedOutcome(env, s, h, operation, fs, now);
    UnrecordedOutcome(s, h, operation, stands, v, decided);
    IdleFinish(RequeueTaken(ApprovalWrite(Judged(s, h, operation, stands, v), h, decided), h), h, connected, denied, core, report);
  }

  lemma UnrecordedOutcome(s: State, h: Id, operation: Id, stands: bool, v: Option<Evidence>, decided: Write)
    requires h !in s.handlers && operation in s.pending && !decided.Stored?
    ensures var t := RequeueTaken(ApprovalWrite(Judged(s, h, operation, stands, v), h, decided), h);
            t.pending == s.pending && t.calls == s.calls && t.handlers == s.handlers
  {
    var entry := s.pending[operation];
    assert s.handlers[h := Revalidated(operation, entry, stands, v)][h := Requeueing(operation, entry)] - {h} == s.handlers;
    assert (s.pending - {operation})[operation := entry] == s.pending;
  }

  // Denials ----------------------------------------------------------------------------------------------------------

  /** The outcome of a denial: the entry is gone, nothing ran, and each write that is not lost says so. */
  lemma DenialOutcome(s: State, h: Id, operation: Id, decided: Write, finished: Write)
    requires Safe(s) && h !in s.handlers && operation in s.pending
    ensures var t := HandledDenial(s, h, operation, decided, finished);
            && t.pending == s.pending - {operation} && t.calls == s.calls && t.handlers == s.handlers
            && operation in t.audit && OtherRowsKept(s.audit, t.audit, operation)
            && (!decided.Lost? ==> t.audit[operation].approval == Some(Denied))
            && (!finished.Lost? ==> ShowsRefusal(t.audit[operation].execution, "DENIED_BY_USER"))
  {
    assert EntrySound(s.audit, s.calls, operation, s.pending[operation]);
    var t := HandledDenial(s, h, operation, decided, finished);
    assert s.handlers[h := DenialRecorded(operation)] - {h} == s.handlers;
  }

  /** And of a sweep: each swept row whose write is not lost says that the session was revoked. */
  lemma SweptRowOutcome(s: State, h: Id, operation: Id, w: Write)
    requires h in s.handlers && s.handlers[h].Finalizing? && operation in s.handlers[h].operations && operation in s.audit
    ensures var t := FinalizeOne(s, h, operation, w);
            && operation in t.audit && OtherRowsKept(s.audit, t.audit, operation) && t.calls == s.calls && t.pending == s.pending
            && (!w.Lost? ==> ShowsRefusal(t.audit[operation].execution, "SESSION_REVOKED"))
  {
  }

  // Arrivals -----------------------------------------------------------------------------------------------------------

  // The device the subject's grant is bound to, or its row if it has no grant.
  ghost function DeviceOf(s: State, subject: Id): Option<Id>
    requires s.WellKeyed()
  {
    var grant := Authority(s.grants, s.sessions, subject);
    if grant.Some? then Some(grant.value.device)
    else if subject in s.sessions then Some(s.sessions[subject].device) else None
  }

  ghost predicate FromBoundDevice(env: Env, s: State, request: OperationRequest, claimed: Option<Id>)
    requires s.WellKeyed()
  {
    claimed.Some? && env.device == claimed && DeviceOf(s, request.sessionId) == claimed
  }

  // The policy's verdict on a request that has a grant, a known workspace and the right actor; nothing otherwise.
  ghost function RightVerdict(
    env: Env, s: State, request: OperationRequest, actor: Option<VerifiedPrincipal>, fs: FileSystem, now: Time)
    : Option<(PolicyDecision, Evidence)>
    requires s.WellKeyed()
  {
    var grant := Authority(s.grants, s.sessions, request.sessionId);
    if grant.Some? && request.workspaceId in s.workspaces && SpeaksFor(grant.value.principal, actor) then
      var v := Evidence(grant.value, s.workspaces[request.workspaceId], fs, now);
      Some((env.verdict(request, v), v))
    else None
  }

  ghost predicate RowIsFor(row: AuditRow, request: OperationRequest) {
    && row.sessionId == request.sessionId && row.workspaceId == request.workspaceId && row.tool == request.tool
    && row.approval == None
  }

  // What a recorded request leads to.
  ghost predicate HandledAs(
    s: State, t: State, request: OperationRequest, verdict: Option<(PolicyDecision, Evidence)>, core: CoreResult, report: Write)
  {
    var operation := request.operationId;
    && t.handlers == s.handlers && operation in t.audit && OtherRowsKept(s.audit, t.audit, operation)
    && var row := t.audit[operation];
       && RowIsFor(row, request)
       && if verdict.Some? && verdict.value.0.Allow? then
            var (decision, v) := verdict.value;
            && t.calls == s.calls + [CoreCall(request, decision.capability, decision.risk, false, Some(v))]
            && t.pending == s.pending && row.result == ResultAllow
            && row.capability == Some(decision.capability) && row.risk == Some(decision.risk.effective)
            && (!report.Lost? ==> ShowsCore(row.execution, core))
          else if verdict.Some? && verdict.value.0.RequireApproval? then
            var (decision, _) := verdict.value;
            && t.calls == s.calls && row.result == ResultRequireApproval && NotYetRun(row.execution)
            && t.pending == s.pending[operation := PendingOperation(request, decision.capability, decision.risk)]
            && row.capability == Some(decision.capability) && row.risk == Some(decision.risk.effective)
          else
            && t.calls == s.calls && t.pending == s.pending && row.result == ResultDeny && NotYetRun(row.execution)
            && row.capability == None && row.risk == None
  }

  // From a judged request to the end of its handler.
  lemma JudgedRequestOutcome(
    s: State, h: Id, request: OperationRequest, decision: PolicyDecision, evidence: Option<Evidence>,
    verdict: Option<(PolicyDecision, Evidence)>, core: CoreResult, report: Write)
    requires h !in s.handlers && request.operationId !in s.audit
    requires if verdict.Some? then decision == verdict.value.0 && evidence == Some(verdict.value.1) else decision.Deny?
    ensures var u := s.(handlers := s.handlers[h := Evaluated(request, decision, evidence)]);
            HandledAs(s, Report(DispatchRecorded(AuditWrite(u, h, Stored), h), h, core, report), request, verdict, core, report)
  {
    var u := s.(handlers := s.handlers[h := Evaluated(request, decision, evidence)]);
    var recorded := AuditWrite(u, h, Stored);
    assert recorded.handlers == s.handlers[h := Recorded(request, decision, evidence)];
    assert s.handlers[h := Recorded(request, decision, evidence)] - {h} == s.handlers;
    if decision.Allow? {
      assert s.handlers[h := Recorded(request, decision, evidence)][h := Executed(request.operationId)] - {h} == s.handlers;
    }
  }

  /** The outcome of an operation request with an id not seen before, whose record is written: from the bound
      device, with a grant, a known workspace and the actor the grant was given to, Allow makes exactly that
      call, RequireApproval queues exactly that entry, Deny does neither; lacking any of those it is denied. */
  lemma OperationOutcome(
    env: Env, s: State, h: Id, request: OperationRequest, claimed: Option<Id>, actor: Option<VerifiedPrincipal>,
    fs: FileSystem, now: Time, core: CoreResult, report: Write)
    requires env.Valid() && s.WellKeyed() && h !in s.handlers && request.operationId !in s.audit
    requires FromBoundDevice(env, s, request, claimed)
    ensures HandledAs(s, HandledOperation(env, s, h, request, claimed, actor, fs, now, Stored, core, report), request,
                      RightVerdict(env, s, request, actor, fs, now), core, report)
  {
    var decision, evidence := ArrivalOutcome(env, s, h, request, claimed, actor, fs, now);
    JudgedRequestOutcome(s, h, request, decision, evidence, RightVerdict(env, s, request, actor, fs, now), core, report);
  }

  lemma ArrivalOutcome(
    env: Env, s: State, h: Id, request: OperationRequest, claimed: Option<Id>, actor: Option<VerifiedPrincipal>,
    fs: FileSystem, now: Time)
    returns (decision: PolicyDecision, evidence: Option<Evidence>)
    requires env.Valid() && s.WellKeyed() && h !in s.handlers && FromBoundDevice(env, s, request, claimed)
    ensures Arrive(env, s, h, request, claimed, actor, fs, now) ==
            s.(handlers := s.handlers[h := Evaluated(request, decision, evidence)])
    ensures var verdict := RightVerdict(env, s, request, actor, fs, now);
            if verdict.Some? then decision == verdict.value.0 && evidence == Some(verdict.value.1) else decision.Deny?
  {
    var grant := Authority(s.grants, s.sessions, request.sessionId);
    if grant.Some? { AcceptedSpeaksFor(grant.value.principal, actor); }
    var u := Arrive(env, s, h, request, claimed, actor, fs, now);
    decision, evidence := u.handlers[h].decision, u.handlers[h].evidence;
  }

  /** From any other device the request leaves no trace; and one whose id was recorded before, or whose record
      is not confirmed, runs nothing and queues nothing. */
  lemma RefusedOutcome(
    env: Env, s: State, h: Id, request: OperationRequest, claimed: Option<Id>, actor: Option<VerifiedPrincipal>,
    fs: FileSystem, now: Time, record: Write, core: CoreResult, report: Write)
    requires env.Valid() && s.WellKeyed() && h !in s.handlers
    ensures var t := HandledOperation(env, s, h, request, claimed, actor, fs, now, record, core, report);
            && (!FromBoundDevice(env, s, request, claimed) ==> t == s)
            && (request.operationId in s.audit || !record.Stored? ==>
                  t.calls == s.calls && t.pending == s.pending && t.handlers == s.handlers)
            && (request.operationId in s.audit ==> t.audit == s.audit)
  {
    if !FromBoundDevice(env, s, request, claimed) {
      assert Arrive(env, s, h, request, claimed, actor, fs, now) == s;
      IdleRemote(s, h, record, core, report);
    } else {
      var decision, evidence := ArrivalOutcome(env, s, h, request, claimed, actor, fs, now);
      if request.operationId in s.audit || !record.Stored? {
        UnrecordedRequestOutcome(s, h, request, decision, evidence, record, core, report);
      }
    }
  }

  lemma UnrecordedRequestOutcome(
    s: State, h: Id, request: OperationRequest, decision: PolicyDecision, evidence: Option<Evidence>, record: Write,
    core: CoreResult, report: Write)
    requires h !in s.handlers && (request.operationId in s.audit || !record.Stored?)
    ensures var u := s.(handlers := s.handlers[h := Evaluated(request, decision, evidence)]);
            var t := Report(DispatchRecorded(AuditWrite(u, h, record), h), h, core, report);
            && t.calls == s.calls && t.pending == s.pending && t.handlers == s.handlers
            && (request.operationId in s.audit ==> t.audit == s.audit)
  {
    var u := s.(handlers := s.handlers[h := Evaluated(request, decision, evidence)]);
    assert u.handlers - {h} == s.handlers;
    IdleRemote(AuditWrite(u, h, record), h, record, core, report);
  }
}
