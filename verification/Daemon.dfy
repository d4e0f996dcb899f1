/** The operation pipeline of apps/daemon/src/remote_processor.rs and the local decisions of
    apps/daemon/src/handlers.rs as one interleaved system. Every handler is cut at the points where it
    gives up a lock, so any sequence of events is a run: an event whose handler is not at that point
    changes nothing. */
module Daemon {
  import opened Prelude
  import opened Authorization
  import opened Boundary
  import opened Risk
  import opened Policy
  import opened GrantStore
  import GM = GrantMachine
  import S = Sessions

  // How a durable write ends: done and reported, lost, or done although an error was reported.
  datatype Write = Stored | Lost | StoredUnreported

  datatype PolicyResult = ResultAllow | ResultDeny | ResultRequireApproval

  datatype ApprovalDecision = AllowOnce | Denied

  datatype ExecutionStatus = NotExecuted | Success | Failed

  // The three columns an execution update sets together; only a core call has a duration.
  datatype Execution = Execution(status: ExecutionStatus, errorClass: Option<string>, duration: Option<nat>)

  // How a core call ends.
  datatype CoreResult = Returned(millis: nat) | Broke(code: string, millis: nat)

  function ExecutionOf(core: CoreResult): (r: Execution) {
    match core
    case Returned(millis) => Execution(Success, None, Some(millis))
    case Broke(code, millis) => Execution(Failed, Some(code), Some(millis))
  }

  // An operation closed without ever reaching the core.
  function Unexecuted(class_: string): (r: Execution) {
    Execution(Failed, Some(class_), None)
  }

  datatype AuditRow = AuditRow(
    sessionId: Id, workspaceId: Id, tool: string, capability: Option<Capability>, risk: Option<RiskLevel>,
    result: PolicyResult, approval: Option<ApprovalDecision>, execution: Execution)

  type Audit = map<Id, AuditRow>

  datatype PendingOperation = PendingOperation(request: OperationRequest, capability: Capability, risk: RiskAssessment)

  // What one policy evaluation looked at.
  datatype Evidence = Evidence(grant: AccessGrant, workspace: Workspace, fs: FileSystem, now: Time)

  datatype Handler =
    | Evaluated(request: OperationRequest, decision: PolicyDecision, evidence: Option<Evidence>)
    | Recorded(request: OperationRequest, decision: PolicyDecision, evidence: Option<Evidence>)
    | Executed(operation: Id)
    | Revalidating(operation: Id, entry: PendingOperation)
    | Revalidated(operation: Id, entry: PendingOperation, authorized: bool, evidence: Option<Evidence>)
    | Approved(operation: Id, entry: PendingOperation, authorized: bool, evidence: Option<Evidence>)
    | Requeueing(operation: Id, entry: PendingOperation)
    | Denying(operation: Id, entry: PendingOperation)
    | DenialRecorded(operation: Id)
    | Invalidating(subject: Id)
    | Finalizing(operations: set<Id>)

  datatype CoreCall = CoreCall(
    request: OperationRequest, capability: Capability, risk: RiskAssessment, approved: bool, evidence: Option<Evidence>)

  // The verdict a call was made on.
  function VerdictOf(call: CoreCall): (r: PolicyDecision) {
    if call.approved then RequireApproval(call.capability, call.risk) else Allow(call.capability, call.risk)
  }

  // Fixed for the life of the installation. The pipeline is modelled for any policy verdict; the
  // PolicyInPipeline module puts the engine in its place.
  datatype Env = Env(verdict: (OperationRequest, Evidence) -> PolicyDecision, device: Option<Id>, ttl: TtlConfig)
  {
    ghost predicate Valid() { ttl.Valid() }
  }

  // The receive loop handles one access request at a time; each of its three statements takes the lock anew.
  datatype RequestProgress = NoRequest | Checked(grant: AccessGrant, row: Session) | RowSaved(grant: AccessGrant)

  datatype State = State(
    grants: Grants, sessions: SessionRows, workspaces: map<Id, Workspace>,
    audit: Audit, pending: map<Id, PendingOperation>, handlers: map<Id, Handler>, calls: seq<CoreCall>,
    request: RequestProgress)
  {
    ghost predicate WellKeyed() { Keyed(grants) && KeyedRows(sessions) }
  }

  datatype AccessRequest = AccessRequest(
    name: string, actor: Option<VerifiedPrincipal>, claimedDevice: Option<Id>, workspaceId: Id,
    profile: CapabilityProfile, taskScope: string, ttlMinutes: Int64)

  datatype Event =
    | OperationArrives(h: Id, request: OperationRequest, claimedDevice: Option<Id>, actor: Option<VerifiedPrincipal>,
                       fs: FileSystem, now: Time)
    | WriteAudit(h: Id, w: Write)
    | Dispatch(h: Id)
    | ReportExecution(h: Id, core: CoreResult, w: Write)
    | TakeForApproval(h: Id, operation: Id)
    | Revalidate(h: Id, fs: FileSystem, now: Time)
    | WriteApproval(h: Id, w: Write)
    | Requeue(h: Id)
    | FinishApproval(h: Id, connected: bool, w: Write)
    | TakeForDenial(h: Id, operation: Id)
    | WriteDenial(h: Id, w: Write)
    | FinishDenial(h: Id, w: Write)
    | DecideSession(h: Id, subject: Id, decision: S.SessionEvent, mirrored: bool, now: Time)
    | InvalidatePending(h: Id)
    | FinalizeInvalidated(h: Id, operation: Id, w: Write)
    | AccessRequested(access: AccessRequest, sessionId: Id, grantId: Id, sessionNow: Time, now: Time)
    | SaveRequestRow(w: Write)
    | SaveRequestGrant(w: Write)
    | WorkspacesChange(workspaces: map<Id, Workspace>)
    | Restart

  // Evaluation ------------------------------------------------------------------------------------------

  ghost function EvidenceFor(s: State, request: OperationRequest, fs: FileSystem, now: Time): Option<Evidence>
    requires s.WellKeyed()
  {
    var grant := Authority(s.grants, s.sessions, request.sessionId);
    if grant.Some? && request.workspaceId in s.workspaces
    then Some(Evidence(grant.value, s.workspaces[request.workspaceId], fs, now))
    else None
  }

  function Judge(env: Env, request: OperationRequest, evidence: Option<Evidence>, workspaceKnown: bool): (r: PolicyDecision)
    requires env.Valid()
  {
    match evidence
    case Some(v) => env.verdict(request, v)
    case None => Policy.Deny(if workspaceKnown then AuthorizationNotEstablished else WorkspaceNotAuthorized)
  }

  // evaluate_operation_request
  ghost function Evaluate(env: Env, s: State, request: OperationRequest, fs: FileSystem, now: Time): PolicyDecision
    requires env.Valid() && s.WellKeyed()
  {
    Judge(env, request, EvidenceFor(s, request, fs, now), request.workspaceId in s.workspaces)
  }

  ghost function BoundDevice(s: State, subject: Id): Option<Id>
    requires s.WellKeyed()
  {
    var grant := Authority(s.grants, s.sessions, subject);
    if grant.Some? then Some(grant.value.device)
    else if subject in s.sessions then Some(s.sessions[subject].device)
    else None
  }

  // Audit statements --------------------------------------------------------------------------------------

  function ResultFor(decision: PolicyDecision): (r: PolicyResult) {
    match decision
    case Allow(_, _) => ResultAllow
    case Deny(_) => ResultDeny
    case RequireApproval(_, _) => ResultRequireApproval
  }

  function RowFor(request: OperationRequest, decision: PolicyDecision): (r: AuditRow) {
    AuditRow(
      request.sessionId, request.workspaceId, request.tool,
      if decision.Deny? then None else Some(decision.capability),
      if decision.Deny? then None else Some(decision.risk.effective),
      ResultFor(decision), None, Execution(NotExecuted, None, None))
  }

  // The operation id is the primary key, so a second record for it always fails.
  function RecordRow(audit: Audit, operation: Id, row: AuditRow, w: Write): (r: (Audit, bool))
    ensures operation in audit ==> r == (audit, false)
  {
    if operation in audit || w.Lost? then (audit, false) else (audit[operation := row], w.Stored?)
  }

  function UpdateExecution(audit: Audit, operation: Id, execution: Execution, w: Write): (r: Audit)
  {
    if operation in audit && !w.Lost?
    then audit[operation := audit[operation].(execution := execution)] else audit
  }

  function UpdateApproval(audit: Audit, operation: Id, decision: ApprovalDecision, w: Write): (r: (Audit, bool))
  {
    if operation in audit && !w.Lost?
    then (audit[operation := audit[operation].(approval := Some(decision))], w.Stored?) else (audit, false)
  }

  // Remote operations ---------------------------------------------------------------------------------------

  ghost function Arrive(
    env: Env, s: State, h: Id, request: OperationRequest, claimed: Option<Id>, actor: Option<VerifiedPrincipal>,
    fs: FileSystem, now: Time): State
    requires env.Valid() && s.WellKeyed()
  {
    if h in s.handlers || claimed.None? || env.device != claimed || BoundDevice(s, request.sessionId) != claimed then s
    else
      var evidence := EvidenceFor(s, request, fs, now);
      var grant := Authority(s.grants, s.sessions, request.sessionId);
      var decision :=
        if grant.Some? && !grant.value.principal.AcceptsTransportPrincipal(actor) then Policy.Deny(PrincipalBindingMismatch)
        else Evaluate(env, s, request, fs, now);
      s.(handlers := s.handlers[h := Evaluated(request, decision, evidence)])
  }

  function AuditWrite(s: State, h: Id, w: Write): (r: State) {
    if h !in s.handlers || !s.handlers[h].Evaluated? then s
    else
      var Evaluated(request, decision, evidence) := s.handlers[h];
      var (audit, ok) := RecordRow(s.audit, request.operationId, RowFor(request, decision), w);
      s.(audit := audit,
         handlers := if ok then s.handlers[h := Recorded(request, decision, evidence)] else s.handlers - {h})
  }

  function DispatchRecorded(s: State, h: Id): (r: State) {
    if h !in s.handlers || !s.handlers[h].Recorded? then s
    else
      var Recorded(request, decision, evidence) := s.handlers[h];
      match decision
      case Allow(capability, risk) =>
        s.(calls := s.calls + [CoreCall(request, capability, risk, false, evidence)],
           handlers := s.handlers[h := Executed(request.operationId)])
      case Deny(_) => s.(handlers := s.handlers - {h})
      case RequireApproval(capability, risk) =>
        s.(pending := s.pending[request.operationId := PendingOperation(request, capability, risk)],
           handlers := s.handlers - {h})
  }

  function Report(s: State, h: Id, core: CoreResult, w: Write): (r: State) {
    if h !in s.handlers || !s.handlers[h].Executed? then s
    else
      s.(audit := UpdateExecution(s.audit, s.handlers[h].operation, ExecutionOf(core), w),
         handlers := s.handlers - {h})
  }

  // Approval ----------------------------------------------------------------------------------------------------

  function TakeApproval(s: State, h: Id, operation: Id): (r: State) {
    if h in s.handlers || operation !in s.pending then s
    else s.(pending := s.pending - {operation}, handlers := s.handlers[h := Revalidating(operation, s.pending[operation])])
  }

  ghost function RevalidateTaken(env: Env, s: State, h: Id, fs: FileSystem, now: Time): State
    requires env.Valid() && s.WellKeyed()
  {
    if h !in s.handlers || !s.handlers[h].Revalidating? then s
    else
      var Revalidating(operation, entry) := s.handlers[h];
      var current := Evaluate(env, s, entry.request, fs, now);
      var authorized := current == RequireApproval(entry.capability, entry.risk);
      s.(handlers := s.handlers[h := Revalidated(operation, entry, authorized, EvidenceFor(s, entry.request, fs, now))])
  }

  function ApprovalWrite(s: State, h: Id, w: Write): (r: State) {
    if h !in s.handlers || !s.handlers[h].Revalidated? then s
    else
      var Revalidated(operation, entry, authorized, evidence) := s.handlers[h];
      var (audit, ok) := UpdateApproval(s.audit, operation, AllowOnce, w);
      s.(audit := audit,
         handlers := s.handlers[h := if ok then Approved(operation, entry, authorized, evidence) else Requeueing(operation, entry)])
  }

  // An entry already back in the queue is never overwritten.
  function RequeueTaken(s: State, h: Id): (r: State) {
    if h !in s.handlers || !s.handlers[h].Requeueing? then s
    else
      var Requeueing(operation, entry) := s.handlers[h];
      s.(pending := if operation in s.pending then s.pending else s.pending[operation := entry],
         handlers := s.handlers - {h})
  }

  // Without a transport an approved operation is dropped, although the approval reports success.
  function ApprovalFinish(s: State, h: Id, connected: bool, w: Write): (r: State) {
    if h !in s.handlers || !s.handlers[h].Approved? then s
    else
      var Approved(operation, entry, authorized, evidence) := s.handlers[h];
      if !authorized then
        s.(audit := UpdateExecution(s.audit, operation, Unexecuted("POLICY_REVALIDATION_DENIED"), w),
           handlers := s.handlers - {h})
      else if !connected then s.(handlers := s.handlers - {h})
      else
        s.(calls := s.calls + [CoreCall(entry.request, entry.capability, entry.risk, true, evidence)],
           handlers := s.handlers[h := Executed(operation)])
  }

  // Denial --------------------------------------------------------------------------------------------------------

  function TakeDenial(s: State, h: Id, operation: Id): (r: State) {
    if h in s.handlers || operation !in s.pending then s
    else s.(pending := s.pending - {operation}, handlers := s.handlers[h := Denying(operation, s.pending[operation])])
  }

  function DenialWrite(s: State, h: Id, w: Write): (r: State) {
    if h !in s.handlers || !s.handlers[h].Denying? then s
    else
      s.(audit := UpdateApproval(s.audit, s.handlers[h].operation, Denied, w).0,
         handlers := s.handlers[h := DenialRecorded(s.handlers[h].operation)])
  }

  function DenialFinish(s: State, h: Id, w: Write): (r: State) {
    if h !in s.handlers || !s.handlers[h].DenialRecorded? then s
    else
      s.(audit := UpdateExecution(s.audit, s.handlers[h].operation, Unexecuted("DENIED_BY_USER"), w),
         handlers := s.handlers - {h})
  }

  // Local decisions on a subject ------------------------------------------------------------------------------------

  // The grant is saved, then the row is mirrored (a write that may be lost, which ends the call), then
  // pending entries go.
  function SaveDecision(s: State, h: Id, subject: Id, next: AccessGrant, row: Option<Session>, mirrored: bool): (r: State)
    ensures s.WellKeyed() && (row.Some? ==> row.value.sessionId == subject) ==> r.WellKeyed()
  {
    var saved := s.(grants := Upsert(s.grants, next));
    if row.Some? && !mirrored then saved
    else
      var mirror := if row.Some? then saved.(sessions := s.sessions[subject := row.value]) else saved;
      if next.status.Revoked? then mirror.(handlers := s.handlers[h := Invalidating(subject)]) else mirror
  }

  // The row a decision mirrors to; a row that refuses the event is left as it is.
  function MirroredRow(sessions: SessionRows, subject: Id, decision: S.SessionEvent, now: Time): (r: Option<Session>)
    ensures r.Some? ==> subject in sessions && r.value.sessionId == sessions[subject].sessionId
  {
    if subject !in sessions then None
    else
      var row := S.Transition(sessions[subject], decision, now);
      if row.Ok? then Some(row.value) else None
  }

  ghost function DecideOn(s: State, h: Id, subject: Id, decision: S.SessionEvent, mirrored: bool, now: Time): (r: State)
    requires s.WellKeyed()
    ensures r.WellKeyed()
  {
    var grant := Authority(s.grants, s.sessions, subject);
    var event := S.AuthorizationEventFor(decision);
    if h in s.handlers || grant.None? || event.None? then s
    else
      var next := GM.Transition(grant.value, event.value, now);
      if next.Err? then s
      else SaveDecision(s, h, subject, next.value, MirroredRow(s.sessions, subject, decision, now), mirrored)
  }

  function InvalidateTaken(s: State, h: Id): (r: State) {
    if h !in s.handlers || !s.handlers[h].Invalidating? then s
    else
      var subject := s.handlers[h].subject;
      var removed := set op | op in s.pending && s.pending[op].request.sessionId == subject;
      s.(pending := s.pending - removed, handlers := s.handlers[h := Finalizing(removed)])
  }

  function FinalizeOne(s: State, h: Id, operation: Id, w: Write): (r: State) {
    if h !in s.handlers || !s.handlers[h].Finalizing? || operation !in s.handlers[h].operations then s
    else
      s.(audit := UpdateExecution(s.audit, operation, Unexecuted("SESSION_REVOKED"), w),
         handlers := s.handlers[h := Finalizing(s.handlers[h].operations - {operation})])
  }

  // Access requests ---------------------------------------------------------------------------------------------------

  function RequestedGrant(env: Env, request: AccessRequest, sessionId: Id, grantId: Id, now: Time): (r: AccessGrant)
    requires env.Valid() && request.claimedDevice.Some?
  {
    Requested(
      GrantRequest(sessionId, request.claimedDevice.value, PrincipalFor(request.name, request.actor), {request.workspaceId},
                   request.profile, request.taskScope, Standing,
                   60 * EffectiveTtl(env.ttl, request.profile, request.ttlMinutes) as int),
      grantId, now)
  }

  predicate Admissible(env: Env, s: State, request: AccessRequest) {
    && (request.actor.Some? ==> request.actor.value.HasRequiredBindingFields())
    && request.claimedDevice.Some? && env.device == request.claimedDevice
    && request.workspaceId in s.workspaces
  }

  // Generated ids are unused ones.
  ghost predicate UnusedIds(s: State, sessionId: Id, grantId: Id) {
    && sessionId !in s.sessions && sessionId !in s.grants && !HasGrant(s.grants, sessionId)
    && grantId !in s.grants && grantId !in s.sessions && grantId != sessionId
  }

  function RequestedRow(env: Env, request: AccessRequest, sessionId: Id, now: Time): (r: Session)
    requires env.Valid() && request.claimedDevice.Some?
  {
    S.RequestedSession(
      sessionId, request.claimedDevice.value, request.name, {request.workspaceId}, request.profile, request.taskScope,
      60 * EffectiveTtl(env.ttl, request.profile, request.ttlMinutes) as int, now)
  }

  // The checks and the search for a live duplicate.
  ghost function CheckRequest(
    env: Env, s: State, request: AccessRequest, sessionId: Id, grantId: Id, sessionNow: Time, now: Time): (r: State)
    requires env.Valid() && s.WellKeyed()
    ensures r.WellKeyed() && r.grants == s.grants && r.sessions == s.sessions
  {
    if !s.request.NoRequest? || !Admissible(env, s, request) || !UnusedIds(s, sessionId, grantId) then s
    else
      var grant := RequestedGrant(env, request, sessionId, grantId, now);
      if HasLiveRequest(s.grants, grant) then s
      else s.(request := Checked(grant, RequestedRow(env, request, sessionId, sessionNow)))
  }

  // Then the row, then the grant; an error ends the request where it stands.
  function RowWrite(s: State, w: Write): (r: State)
    ensures s.WellKeyed() ==> r.WellKeyed()
    ensures r.grants == s.grants
  {
    if !s.request.Checked? then s
    else
      var Checked(grant, row) := s.request;
      s.(sessions := if w.Lost? then s.sessions else s.sessions[row.sessionId := row],
         request := if w.Stored? then RowSaved(grant) else NoRequest)
  }

  function GrantWrite(s: State, w: Write): (r: State)
    ensures s.WellKeyed() ==> r.WellKeyed()
  {
    if !s.request.RowSaved? then s
    else s.(grants := if w.Lost? then s.grants else Upsert(s.grants, s.request.grant), request := NoRequest)
  }

  // The three statements without interruption.
  ghost function RequestAccess(
    env: Env, s: State, request: AccessRequest, sessionId: Id, grantId: Id, sessionNow: Time, now: Time,
    rowWrite: Write, grantWrite: Write): (r: State)
    requires env.Valid() && s.WellKeyed()
    ensures r.WellKeyed()
  {
    GrantWrite(RowWrite(CheckRequest(env, s, request, sessionId, grantId, sessionNow, now), rowWrite), grantWrite)
  }

  // A new process: the queue and all handlers are gone, the database stays and is migrated.
  function Reboot(s: State): (r: State)
    requires s.WellKeyed()
    ensures r.WellKeyed()
  {
    s.(pending := map[], handlers := map[], request := NoRequest, grants := Migrated(s.grants, s.sessions))
  }

  // Runs -----------------------------------------------------------------------------------------------------------------

  ghost function Apply(env: Env, s: State, event: Event): (r: State)
    requires env.Valid() && s.WellKeyed()
    ensures r.WellKeyed()
  {
    match event
    case OperationArrives(h, request, claimed, actor, fs, now) => Arrive(env, s, h, request, claimed, actor, fs, now)
    case WriteAudit(h, w) => AuditWrite(s, h, w)
    case Dispatch(h) => DispatchRecorded(s, h)
    case ReportExecution(h, core, w) => Report(s, h, core, w)
    case TakeForApproval(h, operation) => TakeApproval(s, h, operation)
    case Revalidate(h, fs, now) => RevalidateTaken(env, s, h, fs, now)
    case WriteApproval(h, w) => ApprovalWrite(s, h, w)
    case Requeue(h) => RequeueTaken(s, h)
    case FinishApproval(h, connected, w) => ApprovalFinish(s, h, connected, w)
    case TakeForDenial(h, operation) => TakeDenial(s, h, operation)
    case WriteDenial(h, w) => DenialWrite(s, h, w)
    case FinishDenial(h, w) => DenialFinish(s, h, w)
    case DecideSession(h, subject, decision, mirrored, now) => DecideOn(s, h, subject, decision, mirrored, now)
    case InvalidatePending(h) => InvalidateTaken(s, h)
    case FinalizeInvalidated(h, operation, w) => FinalizeOne(s, h, operation, w)
    case AccessRequested(request, sessionId, grantId, sessionNow, now) =>
      CheckRequest(env, s, request, sessionId, grantId, sessionNow, now)
    case SaveRequestRow(w) => RowWrite(s, w)
    case SaveRequestGrant(w) => GrantWrite(s, w)
    case WorkspacesChange(workspaces) => s.(workspaces := workspaces)
    case Restart => Reboot(s)
  }

  predicate OfRequest(event: Event) {
    event.AccessRequested? || event.SaveRequestRow? || event.SaveRequestGrant?
  }

  ghost function Run(env: Env, s: State, events: seq<Event>): (r: State)
    requires env.Valid() && s.WellKeyed()
    ensures r.WellKeyed()
    decreases |events|
  {
    if events == [] then s else Apply(env, Run(env, s, events[..|events| - 1]), events[|events| - 1])
  }

  // A database of any earlier history, and a process that has done nothing yet.
  ghost predicate Booted(s: State) {
    s.WellKeyed() && s.pending == map[] && s.handlers == map[] && s.calls == [] && s.request == NoRequest
  }
}
