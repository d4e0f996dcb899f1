/** Every core call rests on an evaluation made in the run, and that evaluation met the whole policy. */
module PolicyInPipeline {
  import opened Prelude
  import opened Authorization
  import opened Policy
  import opened GrantStore
  import opened Daemon
  import opened PipelineSafety
  import opened PipelineTheorems
  import opened Provenance

  type Observation = (OperationRequest, Evidence)

  // The evidence an evaluation of the request in state s would look at.
  ghost predicate Observable(s: State, o: Observation)
    requires s.WellKeyed()
  {
    EvidenceFor(s, o.0, o.1.fs, o.1.now) == Some(o.1)
  }

  // seen holds whatever an evaluation in s could permit.
  ghost predicate Covers(env: Env, seen: iset<Observation>, s: State)
    requires s.WellKeyed()
  {
    forall o: Observation | Observable(s, o) && !env.verdict(o.0, o.1).Deny? :: o in seen
  }

  ghost predicate Backs(
    env: Env, seen: iset<Observation>, request: OperationRequest, evidence: Option<Evidence>, decision: PolicyDecision)
  {
    evidence.Some? && (request, evidence.value) in seen && env.verdict(request, evidence.value) == decision
  }

  ghost predicate HandlerBacked(env: Env, seen: iset<Observation>, h: Handler) {
    match h
    case Evaluated(request, decision, evidence) => !decision.Deny? ==> Backs(env, seen, request, evidence, decision)
    case Recorded(request, decision, evidence) => !decision.Deny? ==> Backs(env, seen, request, evidence, decision)
    case Revalidated(_, entry, authorized, evidence) =>
      authorized ==> Backs(env, seen, entry.request, evidence, RequireApproval(entry.capability, entry.risk))
    case Approved(_, entry, authorized, evidence) =>
      authorized ==> Backs(env, seen, entry.request, evidence, RequireApproval(entry.capability, entry.risk))
    case _ => true
  }

  ghost predicate Backed(env: Env, seen: iset<Observation>, s: State) {
    && (forall h | h in s.handlers :: HandlerBacked(env, seen, s.handlers[h]))
    && (forall i | 0 <= i < |s.calls| :: Backs(env, seen, s.calls[i].request, s.calls[i].evidence, VerdictOf(s.calls[i])))
  }

  lemma BackedGrows(env: Env, seen: iset<Observation>, more: iset<Observation>, s: State)
    requires Backed(env, seen, s) && seen <= more
    ensures Backed(env, more, s)
  {
    forall h | h in s.handlers ensures HandlerBacked(env, more, s.handlers[h]) {
      assert HandlerBacked(env, seen, s.handlers[h]);
    }
  }

  // Replacing one handler by a backed one, or dropping it.
  lemma BackedStage(env: Env, seen: iset<Observation>, s: State, h: Id, k: Handler)
    requires Backed(env, seen, s) && HandlerBacked(env, seen, k)
    ensures Backed(env, seen, s.(handlers := s.handlers[h := k]))
    ensures Backed(env, seen, s.(handlers := s.handlers - {h}))
  {
  }

  lemma BackedFrame(env: Env, seen: iset<Observation>, s: State, t: State)
    requires Backed(env, seen, s) && t.handlers == s.handlers && t.calls == s.calls
    ensures Backed(env, seen, t)
  {
  }

  lemma ArriveBacked(
    env: Env, seen: iset<Observation>, s: State, h: Id, request: OperationRequest, claimed: Option<Id>,
    actor: Option<VerifiedPrincipal>, fs: Boundary.FileSystem, now: Time)
    requires env.Valid() && s.WellKeyed() && Backed(env, seen, s)
    requires Covers(env, seen, s)
    ensures Backed(env, seen, Arrive(env, s, h, request, claimed, actor, fs, now))
  {
    var t := Arrive(env, s, h, request, claimed, actor, fs, now);
    var evidence := EvidenceFor(s, request, fs, now);
    if evidence.Some? { assert Observable(s, (request, evidence.value)); }
    if t != s { BackedStage(env, seen, s, h, t.handlers[h]); }
  }

  lemma RevalidateBacked(env: Env, seen: iset<Observation>, s: State, h: Id, fs: Boundary.FileSystem, now: Time)
    requires env.Valid() && s.WellKeyed() && Backed(env, seen, s)
    requires Covers(env, seen, s)
    ensures Backed(env, seen, RevalidateTaken(env, s, h, fs, now))
  {
    var t := RevalidateTaken(env, s, h, fs, now);
    if h in s.handlers && s.handlers[h].Revalidating? {
      var request := s.handlers[h].entry.request;
      var evidence := EvidenceFor(s, request, fs, now);
      if evidence.Some? { assert Observable(s, (request, evidence.value)); }
      BackedStage(env, seen, s, h, t.handlers[h]);
    }
  }

  lemma RecordBacked(env: Env, seen: iset<Observation>, s: State, h: Id, w: Write)
    requires Backed(env, seen, s)
    ensures Backed(env, seen, AuditWrite(s, h, w))
  {
    if h in s.handlers && s.handlers[h].Evaluated? {
      var Evaluated(request, decision, evidence) := s.handlers[h];
      assert HandlerBacked(env, seen, s.handlers[h]);
      BackedStage(env, seen, s, h, Recorded(request, decision, evidence));
    }
  }

  lemma DispatchBacked(env: Env, seen: iset<Observation>, s: State, h: Id)
    requires Backed(env, seen, s)
    ensures Backed(env, seen, DispatchRecorded(s, h))
  {
    if h in s.handlers && s.handlers[h].Recorded? {
      assert HandlerBacked(env, seen, s.handlers[h]);
      BackedStage(env, seen, s, h, Executed(s.handlers[h].request.operationId));
    }
  }

  lemma ApprovalWriteBacked(env: Env, seen: iset<Observation>, s: State, h: Id, w: Write)
    requires Backed(env, seen, s)
    ensures Backed(env, seen, ApprovalWrite(s, h, w))
  {
    if h in s.handlers && s.handlers[h].Revalidated? {
      assert HandlerBacked(env, seen, s.handlers[h]);
      BackedStage(env, seen, s, h, ApprovalWrite(s, h, w).handlers[h]);
    }
  }

  lemma ApprovalFinishBacked(env: Env, seen: iset<Observation>, s: State, h: Id, connected: bool, w: Write)
    requires Backed(env, seen, s)
    ensures Backed(env, seen, ApprovalFinish(s, h, connected, w))
  {
    if h in s.handlers && s.handlers[h].Approved? {
      assert HandlerBacked(env, seen, s.handlers[h]);
      BackedStage(env, seen, s, h, Executed(s.handlers[h].operation));
    }
  }

  // Steps that drop a handler or move it to a stage that asserts nothing.
  lemma QuietStep(env: Env, seen: iset<Observation>, s: State, t: State, h: Id)
    requires Backed(env, seen, s) && t.calls == s.calls
    requires t.handlers == s.handlers || t.handlers == s.handlers - {h}
             || (h in t.handlers && t.handlers == s.handlers[h := t.handlers[h]] && HandlerBacked(env, seen, t.handlers[h]))
    ensures Backed(env, seen, t)
  {
  }

  lemma DenialStepBacked(env: Env, seen: iset<Observation>, s: State, event: Event)
    requires env.Valid() && s.WellKeyed() && Backed(env, seen, s)
    requires event.TakeForDenial? || event.WriteDenial? || event.FinishDenial? || event.FinalizeInvalidated?
    ensures Backed(env, seen, Apply(env, s, event))
  {
    QuietStep(env, seen, s, Apply(env, s, event), event.h);
  }

  lemma QueueStepBacked(env: Env, seen: iset<Observation>, s: State, event: Event)
    requires env.Valid() && s.WellKeyed() && Backed(env, seen, s)
    requires event.ReportExecution? || event.TakeForApproval? || event.Requeue? || event.InvalidatePending?
    ensures Backed(env, seen, Apply(env, s, event))
  {
    QuietStep(env, seen, s, Apply(env, s, event), event.h);
  }

  lemma DecideBacked(env: Env, seen: iset<Observation>, s: State, event: Event)
    requires env.Valid() && s.WellKeyed() && Backed(env, seen, s) && event.DecideSession?
    ensures Backed(env, seen, Apply(env, s, event))
  {
    DecideTouches(s, event.h, event.subject, event.decision, event.mirrored, event.now);
    QuietStep(env, seen, s, Apply(env, s, event), event.h);
  }

  lemma AuthorityStepBacked(env: Env, seen: iset<Observation>, s: State, event: Event)
    requires env.Valid() && s.WellKeyed() && Backed(env, seen, s)
    requires event.DecideSession? || OfRequest(event) || event.WorkspacesChange? || event.Restart?
    ensures Backed(env, seen, Apply(env, s, event))
  {
    if event.DecideSession? {
      DecideBacked(env, seen, s, event);
    } else if !event.Restart? {
      BackedFrame(env, seen, s, Apply(env, s, event));
    }
  }

  lemma StepBacked(env: Env, seen: iset<Observation>, s: State, event: Event)
    requires env.Valid() && s.WellKeyed() && Backed(env, seen, s)
    requires Covers(env, seen, s)
    ensures Backed(env, seen, Apply(env, s, event))
  {
    match event
    case OperationArrives(h, request, claimed, actor, fs, now) => ArriveBacked(env, seen, s, h, request, claimed, actor, fs, now);
    case Revalidate(h, fs, now) => RevalidateBacked(env, seen, s, h, fs, now);
    case WriteAudit(h, w) => RecordBacked(env, seen, s, h, w);
    case Dispatch(h) => DispatchBacked(env, seen, s, h);
    case WriteApproval(h, w) => ApprovalWriteBacked(env, seen, s, h, w);
    case FinishApproval(h, connected, w) => ApprovalFinishBacked(env, seen, s, h, connected, w);
    case _ =>
      if event.DecideSession? || OfRequest(event) || event.WorkspacesChange? || event.Restart? {
        AuthorityStepBacked(env, seen, s, event);
      } else if event.TakeForDenial? || event.WriteDenial? || event.FinishDenial? || event.FinalizeInvalidated? {
        DenialStepBacked(env, seen, s, event);
      } else {
        QueueStepBacked(env, seen, s, event);
      }
  }

  // Everything observable in some state of the run so far.
  ghost function Observed(env: Env, s: State, events: seq<Event>): iset<Observation>
    requires env.Valid() && s.WellKeyed()
  {
    iset o: Observation | SeenDuring(env, s, events, o)
  }

  ghost predicate SeenDuring(env: Env, s: State, events: seq<Event>, o: Observation)
    requires env.Valid() && s.WellKeyed()
  {
    exists n | 0 <= n <= |events| :: Observable(Run(env, s, events[..n]), o)
  }

  lemma {:induction false} RunBacked(env: Env, s: State, events: seq<Event>)
    requires env.Valid() && Booted(s)
    ensures Backed(env, Observed(env, s, events), Run(env, s, events))
    decreases |events|
  {
    if events != [] {
      var init, last := events[..|events| - 1], events[|events| - 1];
      RunBacked(env, s, init);
      var seen, more := Observed(env, s, init), Observed(env, s, events);
      forall o | o in seen ensures o in more {
        assert SeenDuring(env, s, init, o);
        var n :| 0 <= n <= |init| && Observable(Run(env, s, init[..n]), o);
        assert init[..n] == events[..n];
      }
      assert events[..|init|] == init;
      BackedGrows(env, seen, more, Run(env, s, init));
      StepBacked(env, more, Run(env, s, init), last);
    }
  }

  // The policy engine in the pipeline ---------------------------------------------------------------------------

  ghost function EngineEnv(engine: Engine, device: Option<Id>, ttl: TtlConfig): (env: Env)
    requires engine.Valid()
    ensures env.device == device && env.ttl == ttl
    ensures forall request, v: Evidence ::
              env.verdict(request, v) == EvaluateWithGrant(engine, request, v.grant, v.workspace, v.fs, v.now)
  {
    Env((request: OperationRequest, v: Evidence) =>
          if engine.Valid() then EvaluateWithGrant(engine, request, v.grant, v.workspace, v.fs, v.now)
          else Policy.Deny(MalformedRequest),
        device, ttl)
  }

  // Step n of the run evaluated the request on exactly v: the grant and workspace stored at that moment.
  ghost predicate JudgedAt(env: Env, s: State, events: seq<Event>, n: nat, request: OperationRequest, v: Evidence)
    requires env.Valid() && s.WellKeyed() && n <= |events|
  {
    var then_ := Run(env, s, events[..n]);
    && Authority(then_.grants, then_.sessions, request.sessionId) == Some(v.grant)
    && request.workspaceId in then_.workspaces && then_.workspaces[request.workspaceId] == v.workspace
  }

  // Step n of the run is the arrival of the request at h, judged on v, from the device this daemon and the
  // grant are bound to, and from the actor the grant was given to.
  ghost predicate AdmittedAt(env: Env, s: State, events: seq<Event>, n: nat, h: Id, request: OperationRequest, v: Evidence)
    requires env.Valid() && s.WellKeyed()
  {
    && n < |events| && events[n].OperationArrives? && events[n].h == h && events[n].request == request
    && events[n].fs == v.fs && events[n].now == v.now
    && JudgedAt(env, s, events, n, request, v)
    && events[n].claimedDevice == env.device && env.device == Some(v.grant.device)
    && SpeaksFor(v.grant.principal, events[n].actor)
  }

  // Before step m the entry arrived, was so admitted, and was judged to need approval with this capability
  // and this risk.
  ghost predicate ArrivedBefore(env: Env, s: State, events: seq<Event>, m: nat, entry: PendingOperation)
    requires env.Valid() && s.WellKeyed()
  {
    exists h: Id, n: nat, v: Evidence ::
      n < m && AdmittedAt(env, s, events, n, h, entry.request, v)
      && env.verdict(entry.request, v) == RequireApproval(entry.capability, entry.risk)
  }

  // Step j of the run made call i.
  ghost predicate MadeAt(env: Env, s: State, events: seq<Event>, j: nat, i: nat)
    requires env.Valid() && s.WellKeyed() && j < |events| && i < |Run(env, s, events).calls|
  {
    && Run(env, s, events[..j]).calls == Run(env, s, events).calls[..i]
    && Run(env, s, events[..j + 1]).calls == Run(env, s, events).calls[..i + 1]
  }

  // Call i was judged on arrival at step n and made at step j.
  ghost predicate RanDirectly(env: Env, s: State, events: seq<Event>, i: nat, h: Id, n: nat, j: nat)
    requires env.Valid() && s.WellKeyed() && i < |Run(env, s, events).calls|
  {
    var call := Run(env, s, events).calls[i];
    && n < j < |events| && call.evidence.Some?
    && AdmittedAt(env, s, events, n, h, call.request, call.evidence.value)
    && events[j] == Dispatch(h) && MadeAt(env, s, events, j, i)
  }

  // Call i arrived and was queued before step m, was taken out of the queue at step m, judged again at step n
  // while h held it, and made at step j, the last three by h; what was queued, judged and called is the same
  // request, capability and risk.
  ghost predicate RanAfterApproval(env: Env, s: State, events: seq<Event>, i: nat, h: Id, m: nat, n: nat, j: nat)
    requires env.Valid() && s.WellKeyed() && i < |Run(env, s, events).calls|
  {
    var call := Run(env, s, events).calls[i];
    var operation := call.request.operationId;
    && m < n < j < |events| && call.evidence.Some?
    && events[m] == TakeForApproval(h, operation)
    && operation in Run(env, s, events[..m]).pending && Run(env, s, events[..m]).pending[operation] == EntryOf(call)
    && ArrivedBefore(env, s, events, m, EntryOf(call))
    && events[n] == Revalidate(h, call.evidence.value.fs, call.evidence.value.now)
    && h in Run(env, s, events[..n]).handlers && Run(env, s, events[..n]).handlers[h] == Revalidating(operation, EntryOf(call))
    && JudgedAt(env, s, events, n, call.request, call.evidence.value)
    && events[j].FinishApproval? && events[j].h == h && MadeAt(env, s, events, j, i)
  }

  lemma CalledInRun(env: Env, s: State, events: seq<Event>, j: nat, i: nat, call: CoreCall)
    requires env.Valid() && s.WellKeyed() && CalledAt(TraceOf(env, s, events), j, i, call)
    ensures j < |events| && |Run(env, s, events[..j]).calls| == i
    ensures Run(env, s, events[..j + 1]).calls == Run(env, s, events[..j]).calls + [call]
  {
    TraceIsTheRun(env, s, events, j);
    TraceIsTheRun(env, s, events, j + 1);
  }

  lemma MadeInRun(env: Env, s: State, events: seq<Event>, j: nat, i: nat, call: CoreCall)
    requires env.Valid() && Booted(s) && j < |events| && |Run(env, s, events[..j]).calls| == i
    requires Run(env, s, events[..j + 1]).calls == Run(env, s, events[..j]).calls + [call]
    ensures i < |Run(env, s, events).calls| && MadeAt(env, s, events, j, i)
  {
    CallsOnlyGrow(env, s, events, j + 1);
    PrefixesOf(Run(env, s, events[..j]).calls, Run(env, s, events[..j + 1]).calls, Run(env, s, events).calls, call);
  }

  lemma PrefixesOf(before: seq<CoreCall>, after: seq<CoreCall>, all: seq<CoreCall>, call: CoreCall)
    requires after == before + [call] && after <= all
    ensures before == all[..|before|] && after == all[..|before| + 1]
  {
  }

  lemma DirectInRun(env: Env, s: State, events: seq<Event>, i: nat, h: Id, n: nat, j: nat)
    requires env.Valid() && Booted(s) && i < |Run(env, s, events).calls|
    requires DirectCall(env, TraceOf(env, s, events), h, n, j, i, Run(env, s, events).calls[i])
    ensures RanDirectly(env, s, events, i, h, n, j)
  {
    TraceIsTheRun(env, s, events, n);
    CalledInRun(env, s, events, j, i, Run(env, s, events).calls[i]);
    MadeInRun(env, s, events, j, i, Run(env, s, events).calls[i]);
  }

  lemma ArrivalInRun(env: Env, s: State, events: seq<Event>, m: nat, entry: PendingOperation)
    requires env.Valid() && s.WellKeyed() && QueuedBefore(env, TraceOf(env, s, events), m, entry)
    ensures ArrivedBefore(env, s, events, m, entry)
  {
    var h: Id, n: nat, v: Evidence :| n < m && QueuedFrom(env, TraceOf(env, s, events), n, h, entry, v);
    TraceIsTheRun(env, s, events, n);
    assert AdmittedAt(env, s, events, n, h, entry.request, v);
  }

  lemma ApprovedInRun(env: Env, s: State, events: seq<Event>, i: nat, h: Id, m: nat, n: nat, j: nat)
    requires env.Valid() && Booted(s) && i < |Run(env, s, events).calls|
    requires ApprovedCall(env, TraceOf(env, s, events), h, m, n, j, i, Run(env, s, events).calls[i])
    ensures RanAfterApproval(env, s, events, i, h, m, n, j)
  {
    TraceIsTheRun(env, s, events, m);
    TraceIsTheRun(env, s, events, n);
    ArrivalInRun(env, s, events, m, EntryOf(Run(env, s, events).calls[i]));
    CalledInRun(env, s, events, j, i, Run(env, s, events).calls[i]);
    MadeInRun(env, s, events, j, i, Run(env, s, events).calls[i]);
  }

  /** Every operation that reached the core in any run rests on one evaluation made at a named step: for an
      approved one, the revalidation its approval made after taking the entry out of the queue, with the
      request, capability and risk that were queued; for another, the one on its arrival. That evaluation,
      on the grant and workspace stored at that step, gave exactly the verdict the call carries. And the
      arrival behind either came from the device this daemon and the grant answering then are bound to, and
      from the actor that grant was given to. */
  lemma EveryCallWasJudged(env: Env, s: State, events: seq<Event>, i: nat)
    requires env.Valid() && Booted(s) && i < |Run(env, s, events).calls|
    ensures var call := Run(env, s, events).calls[i];
            && call.evidence.Some? && env.verdict(call.request, call.evidence.value) == VerdictOf(call)
            && if call.approved
               then exists h: Id, m: nat, n: nat, j: nat :: RanAfterApproval(env, s, events, i, h, m, n, j)
               else exists h: Id, n: nat, j: nat :: RanDirectly(env, s, events, i, h, n, j)
  {
    RunTraced(env, s, events);
    var tr, call := TraceOf(env, s, events), Run(env, s, events).calls[i];
    assert CallTraced(env, tr, i, call);
    if call.approved {
      var h: Id, m: nat, n: nat, j: nat :| ApprovedCall(env, tr, h, m, n, j, i, call);
      ApprovedInRun(env, s, events, i, h, m, n, j);
    } else {
      var h: Id, n: nat, j: nat :| DirectCall(env, tr, h, n, j, i, call);
      DirectInRun(env, s, events, i, h, n, j);
    }
  }

  /** With the policy engine in place: at that step the request met every condition of the flat policy, the
      call carries the tool's capability and exactly the risk that was assessed, and it went through approval
      if and only if that risk is high. */
  lemma EveryCallWasPermitted(engine: Engine, device: Option<Id>, ttl: TtlConfig, s: State, events: seq<Event>, i: nat)
    requires engine.Valid() && ttl.Valid() && Booted(s)
    requires i < |Run(EngineEnv(engine, device, ttl), s, events).calls|
    requires Run(EngineEnv(engine, device, ttl), s, events).calls[i].request.arguments.Valid()
    ensures var env := EngineEnv(engine, device, ttl);
            var call := Run(env, s, events).calls[i];
            && call.evidence.Some?
            && var v := call.evidence.value;
               && EvaluateWithGrant(engine, call.request, v.grant, v.workspace, v.fs, v.now) == VerdictOf(call)
               && Permitted(engine, call.request, v.grant, v.workspace, v.fs, v.now)
               && call.capability == engine.tools[call.request.tool].capability
               && IsRisk(engine.tools[call.request.tool], call.request.arguments.values, call.risk.effective)
               && (call.approved <==> HighRisk(engine, call.request))
               && if call.approved
                  then exists h: Id, m: nat, n: nat, j: nat :: RanAfterApproval(env, s, events, i, h, m, n, j)
                  else exists h: Id, n: nat, j: nat :: RanDirectly(env, s, events, i, h, n, j)
  {
    var env := EngineEnv(engine, device, ttl);
    EveryCallWasJudged(env, s, events, i);
    var call := Run(env, s, events).calls[i];
    var v := call.evidence.value;
    EvaluationIsFlat(engine, call.request, v.grant, v.workspace, v.fs, v.now);
  }
}
