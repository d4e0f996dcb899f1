/** The main results about runs of the pipeline. */
module PipelineTheorems {
  import opened Prelude
  import opened Authorization
  import opened Policy
  import opened GrantStore
  import opened Daemon
  import opened PipelineSafety
  import S = Sessions

  // Ownership ---------------------------------------------------------------------------------------------------

  // The operation handler h may pass on: to the queue, to its next stage or to the core.
  function Passing(s: State, h: Id): (r: Option<Id>) {
    if h in s.handlers && !s.handlers[h].Denying? then HeldOperation(s.handlers[h]) else None
  }

  ghost predicate OthersKept(s: State, t: State, h: Id) {
    forall k: Id | k != h ::
      (k in t.handlers <==> k in s.handlers) && (k in s.handlers ==> t.handlers[k] == s.handlers[k])
  }

  // How operations move in one step of handler h: into the queue or the core only from h, and to h only
  // from the queue, from its own previous stage, or by recording an operation never recorded before.
  ghost predicate Moves(s: State, t: State, h: Id) {
    && OthersKept(s, t, h)
    && KeepsRows(s.audit, t.audit)
    && (forall operation | operation in t.pending && operation !in s.pending :: Passing(s, h) == Some(operation))
    && (Passing(t, h).None? || Passing(t, h) == Passing(s, h) || Passing(t, h).value in s.pending
        || Passing(t, h).value !in s.audit)
    && (t.calls == s.calls ||
        exists call :: t.calls == s.calls + [call] && Evidenced(s.audit, call) && Passing(s, h) == Some(call.request.operationId))
  }

  ghost predicate KeepsRows(a: Audit, b: Audit) {
    forall operation | operation in a :: operation in b
  }

  // A handler advances to a stage k that passes on nothing new.
  lemma StageMoves(s: State, h: Id, audit: Audit, k: Handler)
    requires KeepsRows(s.audit, audit)
    requires k.Denying? || HeldOperation(k).None? || HeldOperation(k) == Passing(s, h) || HeldOperation(k).value !in s.audit
    ensures Moves(s, s.(audit := audit, handlers := s.handlers[h := k]), h)
  {
  }

  lemma ReleaseMoves(s: State, h: Id, audit: Audit)
    requires KeepsRows(s.audit, audit)
    ensures Moves(s, s.(audit := audit, handlers := s.handlers - {h}), h)
  {
  }

  // Nothing moves; at most a sweep begins.
  lemma IdleMoves(s: State, t: State, h: Id, subject: Id)
    requires t.audit == s.audit && t.pending == s.pending && t.calls == s.calls
    requires t.handlers == s.handlers || t.handlers == s.handlers[h := Invalidating(subject)]
    ensures Moves(s, t, h)
  {
  }

  lemma CallMoves(s: State, h: Id, call: CoreCall)
    requires Evidenced(s.audit, call) && Passing(s, h) == Some(call.request.operationId)
    ensures Moves(s, s.(calls := s.calls + [call], handlers := s.handlers[h := Executed(call.request.operationId)]), h)
  {
  }

  lemma ArriveMoves(
    env: Env, s: State, h: Id, request: OperationRequest, claimed: Option<Id>, actor: Option<VerifiedPrincipal>,
    fs: Boundary.FileSystem, now: Time)
    requires env.Valid() && s.WellKeyed()
    ensures Moves(s, Arrive(env, s, h, request, claimed, actor, fs, now), h)
  {
  }

  lemma AuditWriteMoves(s: State, h: Id, w: Write)
    ensures Moves(s, AuditWrite(s, h, w), h)
  {
    if h in s.handlers && s.handlers[h].Evaluated? {
      var Evaluated(request, decision, evidence) := s.handlers[h];
      var (audit, ok) := RecordRow(s.audit, request.operationId, RowFor(request, decision), w);
      if ok { StageMoves(s, h, audit, Recorded(request, decision, evidence)); } else { ReleaseMoves(s, h, audit); }
    }
  }

  lemma DispatchMoves(s: State, h: Id)
    requires Safe(s)
    ensures Moves(s, DispatchRecorded(s, h), h)
  {
    if h in s.handlers && s.handlers[h].Recorded? {
      assert HandlerSound(s.audit, s.calls, s.handlers[h]);
      var Recorded(request, decision, evidence) := s.handlers[h];
      match decision
      case Allow(capability, risk) => CallMoves(s, h, CoreCall(request, capability, risk, false, evidence));
      case Deny(_) => ReleaseMoves(s, h, s.audit);
      case RequireApproval(_, _) =>
    }
  }

  lemma ApprovalFinishMoves(s: State, h: Id, connected: bool, w: Write)
    requires Safe(s)
    ensures Moves(s, ApprovalFinish(s, h, connected, w), h)
  {
    if h in s.handlers && s.handlers[h].Approved? {
      assert HandlerSound(s.audit, s.calls, s.handlers[h]);
      var Approved(operation, entry, authorized, evidence) := s.handlers[h];
      if !authorized {
        ReleaseMoves(s, h, UpdateExecution(s.audit, operation, Unexecuted("POLICY_REVALIDATION_DENIED"), w));
      } else if connected {
        CallMoves(s, h, CoreCall(entry.request, entry.capability, entry.risk, true, evidence));
      } else {
        ReleaseMoves(s, h, s.audit);
      }
    }
  }

  lemma TakesMove(s: State, h: Id, operation: Id)
    ensures Moves(s, TakeApproval(s, h, operation), h)
    ensures Moves(s, TakeDenial(s, h, operation), h)
  {
  }

  lemma RevalidateMoves(env: Env, s: State, h: Id, fs: Boundary.FileSystem, now: Time)
    requires env.Valid() && s.WellKeyed()
    ensures Moves(s, RevalidateTaken(env, s, h, fs, now), h)
  {
  }

  lemma ApprovalWriteMoves(s: State, h: Id, w: Write)
    ensures Moves(s, ApprovalWrite(s, h, w), h)
  {
    if h in s.handlers && s.handlers[h].Revalidated? {
      StageMoves(s, h, UpdateApproval(s.audit, s.handlers[h].operation, AllowOnce, w).0, ApprovalWrite(s, h, w).handlers[h]);
    }
  }

  lemma RequeueMoves(s: State, h: Id)
    ensures Moves(s, RequeueTaken(s, h), h)
  {
  }

  lemma ReportMoves(s: State, h: Id, core: CoreResult, w: Write)
    ensures Moves(s, Report(s, h, core, w), h)
  {
    if h in s.handlers && s.handlers[h].Executed? { ReleaseMoves(s, h, Report(s, h, core, w).audit); }
  }

  lemma DenialWriteMoves(s: State, h: Id, w: Write)
    ensures Moves(s, DenialWrite(s, h, w), h)
  {
    if h in s.handlers && s.handlers[h].Denying? {
      StageMoves(s, h, DenialWrite(s, h, w).audit, DenialRecorded(s.handlers[h].operation));
    }
  }

  lemma DenialFinishMoves(s: State, h: Id, w: Write)
    ensures Moves(s, DenialFinish(s, h, w), h)
  {
    if h in s.handlers && s.handlers[h].DenialRecorded? { ReleaseMoves(s, h, DenialFinish(s, h, w).audit); }
  }

  lemma SweepMoves(s: State, h: Id)
    ensures Moves(s, InvalidateTaken(s, h), h)
  {
  }

  lemma FinalizeMoves(s: State, h: Id, operation: Id, w: Write)
    ensures Moves(s, FinalizeOne(s, h, operation, w), h)
  {
    if h in s.handlers && s.handlers[h].Finalizing? && operation in s.handlers[h].operations {
      StageMoves(s, h, FinalizeOne(s, h, operation, w).audit, Finalizing(s.handlers[h].operations - {operation}));
    }
  }

  lemma DecideMoves(s: State, h: Id, subject: Id, decision: S.SessionEvent, mirrored: bool, now: Time)
    requires s.WellKeyed()
    ensures Moves(s, DecideOn(s, h, subject, decision, mirrored, now), h)
  {
    DecideTouches(s, h, subject, decision, mirrored, now);
    IdleMoves(s, DecideOn(s, h, subject, decision, mirrored, now), h, subject);
  }

  lemma RequestMoves(env: Env, s: State, event: Event, h: Id)
    requires env.Valid() && s.WellKeyed() && OfRequest(event)
    ensures Moves(s, Apply(env, s, event), h)
  {
    IdleMoves(s, Apply(env, s, event), h, 0);
  }

  // The handler an event belongs to; the others touch no handler, so any id will do.
  function Mover(event: Event): (h: Id) {
    if event.Restart? || OfRequest(event) || event.WorkspacesChange? then 0 else event.h
  }

  lemma ApprovalStepMoves(env: Env, s: State, event: Event)
    requires env.Valid() && s.WellKeyed() && Safe(s)
    requires event.TakeForApproval? || event.Revalidate? || event.WriteApproval? || event.Requeue? || event.FinishApproval?
    ensures Moves(s, Apply(env, s, event), event.h)
  {
    match event
    case TakeForApproval(h, operation) => TakesMove(s, h, operation);
    case Revalidate(h, fs, now) => RevalidateMoves(env, s, h, fs, now);
    case WriteApproval(h, w) => ApprovalWriteMoves(s, h, w);
    case Requeue(h) => RequeueMoves(s, h);
    case FinishApproval(h, connected, w) => ApprovalFinishMoves(s, h, connected, w);
  }

  lemma DenialStepMoves(env: Env, s: State, event: Event)
    requires env.Valid() && s.WellKeyed()
    requires event.TakeForDenial? || event.WriteDenial? || event.FinishDenial?
    ensures Moves(s, Apply(env, s, event), event.h)
  {
    match event
    case TakeForDenial(h, operation) => TakesMove(s, h, operation);
    case WriteDenial(h, w) => DenialWriteMoves(s, h, w);
    case FinishDenial(h, w) => DenialFinishMoves(s, h, w);
  }

  lemma RemoteStepMoves(env: Env, s: State, event: Event)
    requires env.Valid() && s.WellKeyed() && Safe(s)
    requires event.OperationArrives? || event.WriteAudit? || event.Dispatch? || event.ReportExecution?
    ensures Moves(s, Apply(env, s, event), event.h)
  {
    match event
    case OperationArrives(h, request, claimed, actor, fs, now) => ArriveMoves(env, s, h, request, claimed, actor, fs, now);
    case WriteAudit(h, w) => AuditWriteMoves(s, h, w);
    case Dispatch(h) => DispatchMoves(s, h);
    case ReportExecution(h, core, w) => ReportMoves(s, h, core, w);
  }

  lemma AuthorityStepMoves(env: Env, s: State, event: Event)
    requires env.Valid() && s.WellKeyed()
    requires event.DecideSession? || event.InvalidatePending? || event.FinalizeInvalidated?
             || OfRequest(event) || event.WorkspacesChange?
    ensures Moves(s, Apply(env, s, event), Mover(event))
  {
    match event
    case DecideSession(h, subject, decision, mirrored, now) => DecideMoves(s, h, subject, decision, mirrored, now);
    case InvalidatePending(h) => SweepMoves(s, h);
    case FinalizeInvalidated(h, operation, w) => FinalizeMoves(s, h, operation, w);
    case WorkspacesChange(workspaces) => IdleMoves(s, s.(workspaces := workspaces), 0, 0);
    case _ => RequestMoves(env, s, event, 0);
  }

  // The events of operation handlers and of denials.
  predicate OfOperation(event: Event) {
    event.OperationArrives? || event.WriteAudit? || event.Dispatch? || event.ReportExecution?
  }

  predicate OfDenial(event: Event) {
    event.TakeForDenial? || event.WriteDenial? || event.FinishDenial?
  }

  predicate OfApproval(event: Event) {
    event.TakeForApproval? || event.Revalidate? || event.WriteApproval? || event.Requeue? || event.FinishApproval?
  }

  lemma HandlerStepMoves(env: Env, s: State, event: Event)
    requires env.Valid() && s.WellKeyed() && Safe(s) && (OfOperation(event) || OfDenial(event) || OfApproval(event))
    ensures Moves(s, Apply(env, s, event), event.h)
  {
    if OfOperation(event) {
      RemoteStepMoves(env, s, event);
    } else if OfDenial(event) {
      DenialStepMoves(env, s, event);
    } else {
      ApprovalStepMoves(env, s, event);
    }
  }

  lemma StepMoves(env: Env, s: State, event: Event)
    requires env.Valid() && s.WellKeyed() && Safe(s) && !event.Restart?
    ensures Moves(s, Apply(env, s, event), Mover(event))
  {
    if OfOperation(event) || OfDenial(event) || OfApproval(event) {
      assert Mover(event) == event.h;
      HandlerStepMoves(env, s, event);
    } else {
      AuthorityStepMoves(env, s, event);
    }
  }

  // Evidence ------------------------------------------------------------------------------------------------

  ghost predicate AddsEvidencedCall(s: State, t: State) {
    t.calls == s.calls || exists call :: t.calls == s.calls + [call] && Evidenced(s.audit, call)
  }

  lemma StepCalls(env: Env, s: State, event: Event)
    requires env.Valid() && s.WellKeyed() && Safe(s)
    ensures AddsEvidencedCall(s, Apply(env, s, event))
  {
    if !event.Restart? { StepMoves(env, s, event); }
  }

  lemma RunOfOne(env: Env, s: State, event: Event)
    requires env.Valid() && s.WellKeyed()
    ensures Run(env, s, [event]) == Apply(env, s, event)
  {
    assert [event][..0] == [];
    assert Run(env, s, []) == s;
  }

  lemma RunStep(env: Env, s: State, events: seq<Event>, i: nat)
    requires env.Valid() && s.WellKeyed() && i < |events|
    ensures Run(env, s, events[..i + 1]) == Apply(env, Run(env, s, events[..i]), events[i])
  {
    assert events[..i + 1][..i] == events[..i];
  }

  lemma {:induction false} CallsOnlyGrow(env: Env, s: State, events: seq<Event>, i: nat)
    requires env.Valid() && Booted(s) && i <= |events|
    ensures Run(env, s, events[..i]).calls <= Run(env, s, events).calls
    decreases |events| - i
  {
    if i == |events| {
      assert events[..i] == events;
    } else {
      RunSafe(env, s, events[..i]);
      StepCalls(env, Run(env, s, events[..i]), events[i]);
      RunStep(env, s, events, i);
      CallsOnlyGrow(env, s, events, i + 1);
    }
  }

  /** Audit before execution: in every run, with every write free to fail, the step that reaches the core
      finds the durable row (and, for an approved operation, the stored decision) already there, and at
      the end of the run that evidence is still in place. */
  lemma EvidencePrecedesEveryCall(env: Env, s: State, events: seq<Event>, i: nat)
    requires env.Valid() && Booted(s) && i < |events|
    ensures AddsEvidencedCall(Run(env, s, events[..i]), Run(env, s, events[..i + 1]))
    ensures Run(env, s, events[..i + 1]).calls <= Run(env, s, events).calls
    ensures forall k | 0 <= k < |Run(env, s, events).calls| ::
              Evidenced(Run(env, s, events).audit, Run(env, s, events).calls[k])
  {
    RunSafe(env, s, events[..i]);
    StepCalls(env, Run(env, s, events[..i]), events[i]);
    RunStep(env, s, events, i);
    CallsOnlyGrow(env, s, events, i + 1);
    RunSafe(env, s, events);
  }

  /** At most once: over all interleavings, replays, requeues and restarts no operation id reaches the
      core twice, and at every moment it is in the queue or with one handler, not both. */
  lemma EachOperationAtMostOnce(env: Env, s: State, events: seq<Event>)
    requires env.Valid() && Booted(s)
    ensures CalledOnce(Run(env, s, events).calls)
    ensures OneHolder(Run(env, s, events))
    ensures forall operation | operation in Run(env, s, events).pending :: !Called(Run(env, s, events).calls, operation)
  {
    RunSafe(env, s, events);
  }

  // Denials -----------------------------------------------------------------------------------------------------

  // Recorded, out of the queue, and held by nobody who could execute or requeue it.
  ghost predicate Spent(s: State, operation: Id) {
    && operation in s.audit
    && operation !in s.pending
    && forall h | h in s.handlers && HeldOperation(s.handlers[h]) == Some(operation) :: s.handlers[h].Denying?
  }

  lemma MoveKeepsSpent(s: State, t: State, h: Id, operation: Id)
    requires Moves(s, t, h) && Spent(s, operation)
    ensures Spent(t, operation)
    ensures Called(t.calls, operation) <==> Called(s.calls, operation)
  {
    forall k | k in t.handlers && HeldOperation(t.handlers[k]) == Some(operation) ensures t.handlers[k].Denying? {
      if k == h {
        assert Passing(t, h) != Some(operation);
      }
    }
    if t.calls != s.calls {
      var call :| t.calls == s.calls + [call] && Passing(s, h) == Some(call.request.operationId);
      CalledGrows(s.calls, call, operation);
    }
  }

  lemma StepKeepsSpent(env: Env, s: State, event: Event, operation: Id)
    requires env.Valid() && s.WellKeyed() && Safe(s) && Spent(s, operation)
    ensures Spent(Apply(env, s, event), operation)
    ensures Called(Apply(env, s, event).calls, operation) <==> Called(s.calls, operation)
  {
    if !event.Restart? {
      StepMoves(env, s, event);
      MoveKeepsSpent(s, Apply(env, s, event), Mover(event), operation);
    }
  }

  lemma {:induction false} SpentForever(env: Env, s: State, events: seq<Event>, operation: Id)
    requires env.Valid() && s.WellKeyed() && Safe(s) && Spent(s, operation)
    ensures Safe(Run(env, s, events)) && Spent(Run(env, s, events), operation)
    ensures Called(Run(env, s, events).calls, operation) <==> Called(s.calls, operation)
    decreases |events|
  {
    if events != [] {
      var init := events[..|events| - 1];
      SpentForever(env, s, init, operation);
      StepSafe(env, Run(env, s, init), events[|events| - 1]);
      StepKeepsSpent(env, Run(env, s, init), events[|events| - 1], operation);
    }
  }

  /** A denial that took an operation out of the queue is final: whatever its two audit writes do, and
      whatever follows, replays and restarts included, the operation is never queued or executed. */
  lemma DenialIsFinal(env: Env, s: State, before: seq<Event>, h: Id, operation: Id, after: seq<Event>)
    requires env.Valid() && Booted(s)
    requires operation in Run(env, s, before).pending && h !in Run(env, s, before).handlers
    ensures var t := Run(env, TakeDenial(Run(env, s, before), h, operation), after);
            operation !in t.pending && !Called(t.calls, operation)
  {
    var r := Run(env, s, before);
    RunSafe(env, s, before);
    TakeDenialSafe(r, h, operation);
    var t := TakeDenial(r, h, operation);
    assert EntrySound(r.audit, r.calls, operation, r.pending[operation]);
    SpentForever(env, t, after, operation);
  }

  /** Revocation's sweep is as final as a denial for every operation it removes. */
  lemma SweepIsFinal(env: Env, s: State, before: seq<Event>, h: Id, operation: Id, after: seq<Event>)
    requires env.Valid() && Booted(s)
    requires h in Run(env, s, before).handlers && Run(env, s, before).handlers[h].Invalidating?
    requires operation in Run(env, s, before).pending
    requires Run(env, s, before).pending[operation].request.sessionId == Run(env, s, before).handlers[h].subject
    ensures var t := Run(env, InvalidateTaken(Run(env, s, before), h), after);
            operation !in t.pending && !Called(t.calls, operation)
  {
    var r := Run(env, s, before);
    RunSafe(env, s, before);
    InvalidateSafe(r, h);
    assert EntrySound(r.audit, r.calls, operation, r.pending[operation]);
    SpentForever(env, InvalidateTaken(r, h), after, operation);
  }

  // Failed approvals -------------------------------------------------------------------------------------------------

  ghost predicate LeavesAlone(event: Event, h: Id) {
    !event.Restart? && (OfRequest(event) || event.WorkspacesChange? || event.h != h)
  }

  lemma {:induction false} OthersLeaveHandler(env: Env, s: State, events: seq<Event>, h: Id)
    requires env.Valid() && s.WellKeyed() && Safe(s) && h in s.handlers
    requires forall i | 0 <= i < |events| :: LeavesAlone(events[i], h)
    ensures Safe(Run(env, s, events))
    ensures h in Run(env, s, events).handlers && Run(env, s, events).handlers[h] == s.handlers[h]
    decreases |events|
  {
    if events != [] {
      var init, last := events[..|events| - 1], events[|events| - 1];
      assert forall i | 0 <= i < |init| :: init[i] == events[i];
      OthersLeaveHandler(env, s, init, h);
      assert LeavesAlone(last, h);
      StepSafe(env, Run(env, s, init), last);
      OtherLeavesHandler(env, Run(env, s, init), last, h);
    }
  }

  lemma OtherLeavesHandler(env: Env, s: State, event: Event, h: Id)
    requires env.Valid() && s.WellKeyed() && Safe(s) && h in s.handlers && LeavesAlone(event, h)
    ensures h in Apply(env, s, event).handlers && Apply(env, s, event).handlers[h] == s.handlers[h]
  {
    StepMoves(env, s, event);
    var t := Apply(env, s, event);
    if event.WorkspacesChange? {
    } else if OfRequest(event) {
      RequestMoves(env, s, event, h + 1);
    }
  }

  /** An approval whose decision write is not confirmed executes nothing and, whatever other handlers do
      meanwhile, puts back exactly the entry it took: the slot is always still free. */
  lemma FailedApprovalRequeues(
    env: Env, s: State, before: seq<Event>, h: Id, w: Write, between: seq<Event>)
    requires env.Valid() && Booted(s) && !w.Stored?
    requires h in Run(env, s, before).handlers && Run(env, s, before).handlers[h].Revalidated?
    requires forall i | 0 <= i < |between| :: LeavesAlone(between[i], h)
    ensures var r := Run(env, s, before);
            var failed := ApprovalWrite(r, h, w);
            var later := Run(env, failed, between);
            var back := RequeueTaken(later, h);
            var operation := r.handlers[h].operation;
            && failed.calls == r.calls && failed.pending == r.pending
            && operation !in later.pending && !Called(later.calls, operation)
            && back.pending == later.pending[operation := r.handlers[h].entry] && back.calls == later.calls
  {
    var r := Run(env, s, before);
    RunSafe(env, s, before);
    ApprovalWriteSafe(r, h, w);
    var failed := ApprovalWrite(r, h, w);
    OthersLeaveHandler(env, failed, between, h);
    var later := Run(env, failed, between);
    assert HandlerSound(later.audit, later.calls, later.handlers[h]);
    assert HeldOperation(later.handlers[h]).Some?;
  }
}
