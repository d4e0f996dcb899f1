/** What the audit trail says about execution is true: a closed row tells whether its operation reached
    the core, and one closed without execution never will. */
module AuditTruth {
  import opened Prelude
  import opened Authorization
  import opened Boundary
  import opened Policy
  import opened Daemon
  import opened PipelineSafety
  import opened PipelineTheorems

  // Recorded, never called, and nobody left who could.
  ghost predicate Closed(s: State, operation: Id) {
    Spent(s, operation) && !Called(s.calls, operation)
  }

  ghost predicate RowTrue(s: State, operation: Id)
    requires operation in s.audit
  {
    var execution := s.audit[operation].execution;
    && (execution.duration.Some? ==> Called(s.calls, operation))
    && (execution.status.Success? ==> execution.duration.Some?)
    && (!execution.status.NotExecuted? && execution.duration.None? ==> Closed(s, operation))
  }

  // What a handler is about to write is true as well.
  ghost predicate HandlerTrue(s: State, k: Handler) {
    match k
    case Executed(operation) => Called(s.calls, operation)
    case DenialRecorded(operation) => Closed(s, operation)
    case Finalizing(operations) => forall operation | operation in operations :: Closed(s, operation)
    case _ => true
  }

  // Rows of the run itself; what an earlier history left in the table is its own affair.
  ghost predicate Truthful(old_: Audit, s: State) {
    && (forall operation | operation in s.audit && operation !in old_ :: RowTrue(s, operation))
    && (forall h | h in s.handlers :: HandlerTrue(s, s.handlers[h]))
  }

  // A step by h under the ownership discipline, seen from the facts above.
  ghost predicate Follows(s: State, t: State, h: Id) {
    && Moves(s, t, h)
    && (h in t.handlers ==> HandlerTrue(t, t.handlers[h]))
    && (forall operation | operation in t.audit ::
          (operation in s.audit && t.audit[operation].execution == s.audit[operation].execution) || RowTrue(t, operation))
  }

  lemma CallsKept(s: State, t: State, h: Id, operation: Id)
    requires Moves(s, t, h) && Called(s.calls, operation)
    ensures Called(t.calls, operation)
  {
    if t.calls != s.calls {
      var call :| t.calls == s.calls + [call] && Evidenced(s.audit, call) && Passing(s, h) == Some(call.request.operationId);
      CalledGrows(s.calls, call, operation);
    }
  }

  lemma ClosedKept(s: State, t: State, h: Id, operation: Id)
    requires Moves(s, t, h) && Closed(s, operation)
    ensures Closed(t, operation)
  {
    MoveKeepsSpent(s, t, h, operation);
  }

  lemma OldRowStaysTrue(s: State, t: State, h: Id, operation: Id)
    requires Moves(s, t, h) && operation in s.audit && RowTrue(s, operation)
    requires operation in t.audit && t.audit[operation].execution == s.audit[operation].execution
    ensures RowTrue(t, operation)
  {
    if Called(s.calls, operation) { CallsKept(s, t, h, operation); }
    if Closed(s, operation) { ClosedKept(s, t, h, operation); }
  }

  lemma OldHandlerStaysTrue(s: State, t: State, h: Id, k: Handler)
    requires Moves(s, t, h) && HandlerTrue(s, k)
    ensures HandlerTrue(t, k)
  {
    match k
    case Executed(operation) => CallsKept(s, t, h, operation);
    case DenialRecorded(operation) => ClosedKept(s, t, h, operation);
    case Finalizing(operations) =>
      forall operation | operation in operations ensures Closed(t, operation) { ClosedKept(s, t, h, operation); }
    case _ =>
  }

  lemma FollowsKeepsTruth(old_: Audit, s: State, t: State, h: Id)
    requires Truthful(old_, s) && Follows(s, t, h)
    ensures Truthful(old_, t)
  {
    forall operation | operation in t.audit && operation !in old_ ensures RowTrue(t, operation) {
      if operation in s.audit && t.audit[operation].execution == s.audit[operation].execution {
        OldRowStaysTrue(s, t, h, operation);
      }
    }
    forall k | k in t.handlers ensures HandlerTrue(t, t.handlers[k]) {
      if k != h { OldHandlerStaysTrue(s, t, h, s.handlers[k]); }
    }
  }

  // Steps ------------------------------------------------------------------------------------------------------

  // No execution column changes, and new rows have none.
  ghost predicate SameExecutions(a: Audit, b: Audit) {
    forall operation | operation in b ::
      if operation in a then b[operation].execution == a[operation].execution
      else b[operation].execution == Execution(NotExecuted, None, None)
  }

  predicate Silent(k: Handler) { !k.Executed? && !k.DenialRecorded? && !k.Finalizing? }

  lemma QuietKeepsTruth(old_: Audit, s: State, t: State, h: Id)
    requires Truthful(old_, s) && Moves(s, t, h) && SameExecutions(s.audit, t.audit)
    requires h in t.handlers ==> Silent(t.handlers[h]) || HandlerTrue(t, t.handlers[h])
    ensures Truthful(old_, t)
  {
    FollowsKeepsTruth(old_, s, t, h);
  }

  // One row is closed, and the handler has nothing false left to write.
  lemma CloseKeepsTruth(old_: Audit, s: State, t: State, h: Id, operation: Id)
    requires Truthful(old_, s) && Moves(s, t, h)
    requires forall op | op in t.audit && op != operation ::
               op in s.audit && t.audit[op].execution == s.audit[op].execution
    requires operation in t.audit ==>
               RowTrue(t, operation) || (operation in s.audit && t.audit[operation].execution == s.audit[operation].execution)
    requires h in t.handlers ==> HandlerTrue(t, t.handlers[h])
    ensures Truthful(old_, t)
  {
    FollowsKeepsTruth(old_, s, t, h);
  }

  // The operation handler h held has left it, uncalled, for nowhere.
  lemma ReleasedIsClosed(s: State, h: Id, t: State, operation: Id)
    requires Safe(s) && h in s.handlers && HeldOperation(s.handlers[h]) == Some(operation)
    requires t.pending == s.pending && t.calls == s.calls && operation in t.audit
    requires OthersKept(s, t, h) && (h in t.handlers ==> HeldOperation(t.handlers[h]).None?)
    ensures Closed(t, operation)
  {
    assert HandlerSound(s.audit, s.calls, s.handlers[h]);
    forall k | k in t.handlers ensures HeldOperation(t.handlers[k]) != Some(operation) {
      if k != h { assert t.handlers[k] == s.handlers[k]; }
    }
  }

  lemma AuditWriteTruth(old_: Audit, s: State, h: Id, w: Write)
    requires Truthful(old_, s)
    ensures Truthful(old_, AuditWrite(s, h, w))
  {
    if h in s.handlers && s.handlers[h].Evaluated? {
      AuditWriteMoves(s, h, w);
      QuietKeepsTruth(old_, s, AuditWrite(s, h, w), h);
    }
  }

  // The holder of an operation makes its core call.
  lemma CallTruth(old_: Audit, s: State, h: Id, call: CoreCall)
    requires Truthful(old_, s) && Evidenced(s.audit, call) && Passing(s, h) == Some(call.request.operationId)
    ensures Truthful(old_, s.(calls := s.calls + [call], handlers := s.handlers[h := Executed(call.request.operationId)]))
  {
    CallMoves(s, h, call);
    CalledGrows(s.calls, call, call.request.operationId);
    QuietKeepsTruth(old_, s, s.(calls := s.calls + [call], handlers := s.handlers[h := Executed(call.request.operationId)]), h);
  }

  lemma DispatchTruth(old_: Audit, s: State, h: Id)
    requires Safe(s) && Truthful(old_, s)
    ensures Truthful(old_, DispatchRecorded(s, h))
  {
    if h in s.handlers && s.handlers[h].Recorded? {
      assert HandlerSound(s.audit, s.calls, s.handlers[h]);
      var Recorded(request, decision, evidence) := s.handlers[h];
      if decision.Allow? {
        CallTruth(old_, s, h, CoreCall(request, decision.capability, decision.risk, false, evidence));
      } else {
        DispatchMoves(s, h);
        QuietKeepsTruth(old_, s, DispatchRecorded(s, h), h);
      }
    }
  }

  lemma ReportTruth(old_: Audit, s: State, h: Id, core: CoreResult, w: Write)
    requires Truthful(old_, s)
    ensures Truthful(old_, Report(s, h, core, w))
  {
    if h in s.handlers && s.handlers[h].Executed? {
      ReportMoves(s, h, core, w);
      assert HandlerTrue(s, s.handlers[h]);
      CloseKeepsTruth(old_, s, Report(s, h, core, w), h, s.handlers[h].operation);
    }
  }

  lemma ApprovalWriteTruth(old_: Audit, s: State, h: Id, w: Write)
    requires Truthful(old_, s)
    ensures Truthful(old_, ApprovalWrite(s, h, w))
  {
    if h in s.handlers && s.handlers[h].Revalidated? {
      ApprovalWriteMoves(s, h, w);
      QuietKeepsTruth(old_, s, ApprovalWrite(s, h, w), h);
    }
  }

  lemma ApprovalFinishTruth(old_: Audit, s: State, h: Id, connected: bool, w: Write)
    requires Safe(s) && Truthful(old_, s)
    ensures Truthful(old_, ApprovalFinish(s, h, connected, w))
  {
    if h in s.handlers && s.handlers[h].Approved? {
      var Approved(operation, entry, authorized, evidence) := s.handlers[h];
      assert HandlerSound(s.audit, s.calls, s.handlers[h]);
      if !authorized {
        DropTruth(old_, s, h, operation, UpdateExecution(s.audit, operation, Unexecuted("POLICY_REVALIDATION_DENIED"), w));
      } else if connected {
        CallTruth(old_, s, h, CoreCall(entry.request, entry.capability, entry.risk, true, evidence));
      } else {
        DropTruth(old_, s, h, operation, s.audit);
      }
    }
  }

  // The holder of an operation lets it go, with or without closing its row.
  lemma DropTruth(old_: Audit, s: State, h: Id, operation: Id, audit: Audit)
    requires Safe(s) && Truthful(old_, s) && h in s.handlers && HeldOperation(s.handlers[h]) == Some(operation)
    requires operation in s.audit && audit.Keys == s.audit.Keys
    requires forall op | op in s.audit && op != operation :: audit[op] == s.audit[op]
    requires audit[operation] == s.audit[operation]
             || (audit[operation].execution.duration.None? && audit[operation].execution.status.Failed?)
    ensures Truthful(old_, s.(audit := audit, handlers := s.handlers - {h}))
  {
    var t := s.(audit := audit, handlers := s.handlers - {h});
    ReleaseMoves(s, h, audit);
    ReleasedIsClosed(s, h, t, operation);
    CloseKeepsTruth(old_, s, t, h, operation);
  }

  lemma DenialWriteTruth(old_: Audit, s: State, h: Id, w: Write)
    requires Safe(s) && Truthful(old_, s)
    ensures Truthful(old_, DenialWrite(s, h, w))
  {
    if h in s.handlers && s.handlers[h].Denying? {
      assert HandlerSound(s.audit, s.calls, s.handlers[h]);
      DenialWriteMoves(s, h, w);
      ReleasedIsClosed(s, h, DenialWrite(s, h, w), s.handlers[h].operation);
      QuietKeepsTruth(old_, s, DenialWrite(s, h, w), h);
    }
  }

  lemma DenialFinishTruth(old_: Audit, s: State, h: Id, w: Write)
    requires Truthful(old_, s)
    ensures Truthful(old_, DenialFinish(s, h, w))
  {
    if h in s.handlers && s.handlers[h].DenialRecorded? {
      DenialFinishMoves(s, h, w);
      assert HandlerTrue(s, s.handlers[h]);
      ClosedKept(s, DenialFinish(s, h, w), h, s.handlers[h].operation);
      CloseKeepsTruth(old_, s, DenialFinish(s, h, w), h, s.handlers[h].operation);
    }
  }

  lemma SweepTruth(old_: Audit, s: State, h: Id)
    requires Safe(s) && Truthful(old_, s)
    ensures Truthful(old_, InvalidateTaken(s, h))
  {
    if h in s.handlers && s.handlers[h].Invalidating? {
      var t := InvalidateTaken(s, h);
      SweepMoves(s, h);
      forall operation | operation in t.handlers[h].operations ensures Closed(t, operation) {
        assert EntrySound(s.audit, s.calls, operation, s.pending[operation]);
      }
      QuietKeepsTruth(old_, s, t, h);
    }
  }

  lemma FinalizeTruth(old_: Audit, s: State, h: Id, operation: Id, w: Write)
    requires Truthful(old_, s)
    ensures Truthful(old_, FinalizeOne(s, h, operation, w))
  {
    if h in s.handlers && s.handlers[h].Finalizing? && operation in s.handlers[h].operations {
      var t := FinalizeOne(s, h, operation, w);
      FinalizeMoves(s, h, operation, w);
      assert HandlerTrue(s, s.handlers[h]);
      forall op | op in s.handlers[h].operations ensures Closed(t, op) { ClosedKept(s, t, h, op); }
      CloseKeepsTruth(old_, s, t, h, operation);
    }
  }

  // Steps that write no row.
  lemma SilentTruth(old_: Audit, s: State, t: State, h: Id)
    requires Truthful(old_, s) && Moves(s, t, h) && t.audit == s.audit
    requires h in t.handlers ==> Silent(t.handlers[h]) || (h in s.handlers && t.handlers[h] == s.handlers[h])
    ensures Truthful(old_, t)
  {
    if h in t.handlers && !Silent(t.handlers[h]) { OldHandlerStaysTrue(s, t, h, s.handlers[h]); }
    QuietKeepsTruth(old_, s, t, h);
  }

  lemma ArriveTruth(
    env: Env, old_: Audit, s: State, h: Id, request: OperationRequest, claimed: Option<Id>, actor: Option<VerifiedPrincipal>,
    fs: FileSystem, now: Time)
    requires env.Valid() && s.WellKeyed() && Truthful(old_, s)
    ensures Truthful(old_, Arrive(env, s, h, request, claimed, actor, fs, now))
  {
    ArriveMoves(env, s, h, request, claimed, actor, fs, now);
    SilentTruth(old_, s, Arrive(env, s, h, request, claimed, actor, fs, now), h);
  }

  lemma RevalidateTruth(env: Env, old_: Audit, s: State, h: Id, fs: FileSystem, now: Time)
    requires env.Valid() && s.WellKeyed() && Truthful(old_, s)
    ensures Truthful(old_, RevalidateTaken(env, s, h, fs, now))
  {
    RevalidateMoves(env, s, h, fs, now);
    SilentTruth(old_, s, RevalidateTaken(env, s, h, fs, now), h);
  }

  lemma QueueTruth(old_: Audit, s: State, h: Id, operation: Id)
    requires Truthful(old_, s)
    ensures Truthful(old_, TakeApproval(s, h, operation))
    ensures Truthful(old_, TakeDenial(s, h, operation))
    ensures Truthful(old_, RequeueTaken(s, h))
  {
    TakesMove(s, h, operation);
    RequeueMoves(s, h);
    SilentTruth(old_, s, TakeApproval(s, h, operation), h);
    SilentTruth(old_, s, TakeDenial(s, h, operation), h);
    SilentTruth(old_, s, RequeueTaken(s, h), h);
  }

  lemma SilentStepTruth(env: Env, old_: Audit, s: State, event: Event)
    requires env.Valid() && s.WellKeyed() && Truthful(old_, s)
    requires event.OperationArrives? || event.TakeForApproval? || event.Revalidate? || event.Requeue? || event.TakeForDenial?
    ensures Truthful(old_, Apply(env, s, event))
  {
    match event
    case OperationArrives(h, request, claimed, actor, fs, now) =>
      ArriveTruth(env, old_, s, h, request, claimed, actor, fs, now);
    case Revalidate(h, fs, now) => RevalidateTruth(env, old_, s, h, fs, now);
    case TakeForApproval(h, operation) => QueueTruth(old_, s, h, operation);
    case TakeForDenial(h, operation) => QueueTruth(old_, s, h, operation);
    case Requeue(h) => QueueTruth(old_, s, h, 0);
  }

  lemma DecideTruth(env: Env, old_: Audit, s: State, event: Event)
    requires env.Valid() && s.WellKeyed() && Truthful(old_, s) && event.DecideSession?
    ensures Truthful(old_, Apply(env, s, event))
  {
    DecideMoves(s, event.h, event.subject, event.decision, event.mirrored, event.now);
    DecideTouches(s, event.h, event.subject, event.decision, event.mirrored, event.now);
    SilentTruth(old_, s, Apply(env, s, event), event.h);
  }

  lemma RequestTruth(env: Env, old_: Audit, s: State, event: Event)
    requires env.Valid() && s.WellKeyed() && Truthful(old_, s) && OfRequest(event)
    ensures Truthful(old_, Apply(env, s, event))
  {
    RequestMoves(env, s, event, 0);
    SilentTruth(old_, s, Apply(env, s, event), 0);
  }

  lemma AuthorityStepTruth(env: Env, old_: Audit, s: State, event: Event)
    requires env.Valid() && s.WellKeyed() && Truthful(old_, s)
    requires event.DecideSession? || OfRequest(event) || event.WorkspacesChange?
    ensures Truthful(old_, Apply(env, s, event))
  {
    if event.DecideSession? {
      DecideTruth(env, old_, s, event);
    } else if OfRequest(event) {
      RequestTruth(env, old_, s, event);
    } else {
      IdleMoves(s, s.(workspaces := event.workspaces), 0, 0);
      SilentTruth(old_, s, s.(workspaces := event.workspaces), 0);
    }
  }

  lemma RestartTruth(old_: Audit, s: State)
    requires s.WellKeyed() && Truthful(old_, s)
    ensures Truthful(old_, Reboot(s))
  {
    forall operation | operation in s.audit && operation !in old_ ensures RowTrue(Reboot(s), operation) {
      assert RowTrue(s, operation);
    }
  }

  lemma WritingStepTruth(env: Env, old_: Audit, s: State, event: Event)
    requires env.Valid() && s.WellKeyed() && Safe(s) && Truthful(old_, s)
    requires event.WriteAudit? || event.Dispatch? || event.ReportExecution? || event.WriteApproval? || event.FinishApproval?
    ensures Truthful(old_, Apply(env, s, event))
  {
    match event
    case WriteAudit(h, w) => AuditWriteTruth(old_, s, h, w);
    case Dispatch(h) => DispatchTruth(old_, s, h);
    case ReportExecution(h, core, w) => ReportTruth(old_, s, h, core, w);
    case WriteApproval(h, w) => ApprovalWriteTruth(old_, s, h, w);
    case FinishApproval(h, connected, w) => ApprovalFinishTruth(old_, s, h, connected, w);
  }

  lemma StepTruth(env: Env, old_: Audit, s: State, event: Event)
    requires env.Valid() && s.WellKeyed() && Safe(s) && Truthful(old_, s)
    ensures Truthful(old_, Apply(env, s, event))
  {
    match event
    case WriteDenial(h, w) => DenialWriteTruth(old_, s, h, w);
    case FinishDenial(h, w) => DenialFinishTruth(old_, s, h, w);
    case InvalidatePending(h) => SweepTruth(old_, s, h);
    case FinalizeInvalidated(h, operation, w) => FinalizeTruth(old_, s, h, operation, w);
    case Restart => RestartTruth(old_, s);
    case _ =>
      if event.DecideSession? || OfRequest(event) || event.WorkspacesChange? {
        AuthorityStepTruth(env, old_, s, event);
      } else if event.OperationArrives? || event.TakeForApproval? || event.Revalidate? || event.Requeue? || event.TakeForDenial? {
        SilentStepTruth(env, old_, s, event);
      } else {
        WritingStepTruth(env, old_, s, event);
      }
  }

  /** In every run, for every row the run recorded: a duration means the operation reached the core, success
      is never claimed without one, and a row closed without a duration (denied, swept or stale) belongs to
      an operation that did not reach the core and can no longer. */
  lemma {:induction false} AuditTellsExecution(env: Env, s: State, events: seq<Event>)
    requires env.Valid() && Booted(s)
    ensures Truthful(s.audit, Run(env, s, events))
    decreases |events|
  {
    if events != [] {
      var init := events[..|events| - 1];
      AuditTellsExecution(env, s, init);
      RunSafe(env, s, init);
      StepTruth(env, s.audit, Run(env, s, init), events[|events| - 1]);
    }
  }
}
