/** Where every core call comes from: which step took the entry out of the queue, which step judged it, and
    which step made the call. */
module Provenance {
  import opened Prelude
  import opened Authorization
  import opened Boundary
  import opened Policy
  import opened Daemon
  import opened PipelineSafety
  import opened PipelineTheorems
  import S = Sessions

  // A run as the states it passed through: states[i] is the one event i found.
  datatype Trace = Trace(states: seq<State>, events: seq<Event>)
  {
    ghost predicate Valid() { |states| == |events| + 1 }

    ghost function Now(): (s: State)
      requires Valid()
    {
      states[|events|]
    }

    ghost function Then(event: Event, t: State): (r: Trace)
      requires Valid()
      ensures r.Valid() && r.Now() == t && |r.events| == |events| + 1 && r.events[|events|] == event
      ensures forall i | 0 <= i < |states| :: r.states[i] == states[i]
      ensures forall i | 0 <= i < |events| :: r.events[i] == events[i]
    {
      Trace(states + [t], events + [event])
    }
  }

  // An evaluation of the request in state s looks at exactly v.
  ghost predicate Sees(s: State, request: OperationRequest, v: Evidence) {
    s.WellKeyed() && EvidenceFor(s, request, v.fs, v.now) == Some(v)
  }

  // Step n is the arrival of the request, and v is what it was judged on.
  ghost predicate ArrivedAt(env: Env, tr: Trace, n: nat, h: Id, request: OperationRequest, v: Evidence)
    requires tr.Valid()
  {
    && n < |tr.events| && tr.events[n].OperationArrives? && tr.events[n].h == h && tr.events[n].request == request
    && tr.events[n].fs == v.fs && tr.events[n].now == v.now
    && Sees(tr.states[n], request, v)
    && tr.events[n].claimedDevice == env.device && env.device == Some(v.grant.device)
    && SpeaksFor(v.grant.principal, tr.events[n].actor)
  }

  // The actor on the transport is the one the grant was given to: for a verified principal exactly the
  // stored one, complete in every field that binds it; an unverified one has none stored.
  ghost predicate SpeaksFor(principal: Principal, actor: Option<VerifiedPrincipal>) {
    match principal.assurance
    case Unverified => principal.verified == None
    case Verified =>
      && actor.Some? && principal.verified == actor
      && HasText(actor.value.issuer) && HasText(actor.value.subject)
      && HasText(actor.value.authenticationStrength) && HasText(actor.value.transportBinding)
  }

  ghost predicate HasText(s: string) { exists c | c in s :: !IsWhitespace(c) }

  lemma AcceptedSpeaksFor(principal: Principal, actor: Option<VerifiedPrincipal>)
    ensures principal.AcceptsTransportPrincipal(actor) <==> SpeaksFor(principal, actor)
  {
  }

  // Step n is the arrival that put the entry in the queue, judged to need approval with this capability and
  // this risk.
  ghost predicate QueuedFrom(env: Env, tr: Trace, n: nat, h: Id, entry: PendingOperation, v: Evidence)
    requires tr.Valid()
  {
    ArrivedAt(env, tr, n, h, entry.request, v) && env.verdict(entry.request, v) == RequireApproval(entry.capability, entry.risk)
  }

  ghost predicate QueuedBefore(env: Env, tr: Trace, m: nat, entry: PendingOperation)
    requires tr.Valid()
  {
    exists h: Id, n: nat, v: Evidence :: n < m && QueuedFrom(env, tr, n, h, entry, v)
  }

  // Step m takes the entry out of the queue for approval by h.
  ghost predicate TakenAt(env: Env, tr: Trace, m: nat, h: Id, operation: Id, entry: PendingOperation)
    requires tr.Valid()
  {
    && m < |tr.events| && tr.events[m] == TakeForApproval(h, operation)
    && h !in tr.states[m].handlers
    && operation in tr.states[m].pending && tr.states[m].pending[operation] == entry
    && QueuedBefore(env, tr, m, entry)
  }

  // Step n, after step m, judges the taken entry again, on v.
  ghost predicate RejudgedAt(env: Env, tr: Trace, m: nat, n: nat, h: Id, operation: Id, entry: PendingOperation, v: Evidence)
    requires tr.Valid()
  {
    && m < n < |tr.events| && TakenAt(env, tr, m, h, operation, entry)
    && tr.events[n] == Revalidate(h, v.fs, v.now)
    && h in tr.states[n].handlers && tr.states[n].handlers[h] == Revalidating(operation, entry)
    && Sees(tr.states[n], entry.request, v)
  }

  // Step j makes the call, the i-th of the run.
  ghost predicate CalledAt(tr: Trace, j: nat, i: nat, call: CoreCall)
    requires tr.Valid()
  {
    j < |tr.events| && |tr.states[j].calls| == i && tr.states[j + 1].calls == tr.states[j].calls + [call]
  }

  ghost predicate DirectCall(env: Env, tr: Trace, h: Id, n: nat, j: nat, i: nat, call: CoreCall)
    requires tr.Valid()
  {
    && n < j && call.evidence.Some? && ArrivedAt(env, tr, n, h, call.request, call.evidence.value)
    && CalledAt(tr, j, i, call) && tr.events[j] == Dispatch(h)
  }

  // The entry the call was approved from.
  function EntryOf(call: CoreCall): (r: PendingOperation) {
    PendingOperation(call.request, call.capability, call.risk)
  }

  ghost predicate ApprovedCall(env: Env, tr: Trace, h: Id, m: nat, n: nat, j: nat, i: nat, call: CoreCall)
    requires tr.Valid()
  {
    && n < j && call.evidence.Some?
    && RejudgedAt(env, tr, m, n, h, call.request.operationId, EntryOf(call), call.evidence.value)
    && CalledAt(tr, j, i, call) && tr.events[j].FinishApproval? && tr.events[j].h == h
  }

  ghost predicate CallTraced(env: Env, tr: Trace, i: nat, call: CoreCall)
    requires tr.Valid()
  {
    && call.evidence.Some? && env.verdict(call.request, call.evidence.value) == VerdictOf(call)
    && if call.approved then exists h: Id, m: nat, n: nat, j: nat :: ApprovedCall(env, tr, h, m, n, j, i, call)
       else exists h: Id, n: nat, j: nat :: DirectCall(env, tr, h, n, j, i, call)
  }

  ghost predicate JudgementTraced(
    env: Env, tr: Trace, h: Id, request: OperationRequest, decision: PolicyDecision, evidence: Option<Evidence>)
    requires tr.Valid()
  {
    !decision.Deny? ==>
      && evidence.Some? && env.verdict(request, evidence.value) == decision
      && exists n: nat :: ArrivedAt(env, tr, n, h, request, evidence.value)
  }

  ghost predicate RejudgementTraced(
    env: Env, tr: Trace, h: Id, operation: Id, entry: PendingOperation, authorized: bool, evidence: Option<Evidence>)
    requires tr.Valid()
  {
    authorized ==>
      && evidence.Some? && env.verdict(entry.request, evidence.value) == RequireApproval(entry.capability, entry.risk)
      && exists m: nat, n: nat :: RejudgedAt(env, tr, m, n, h, operation, entry, evidence.value)
  }

  ghost predicate HandlerTraced(env: Env, tr: Trace, h: Id, k: Handler)
    requires tr.Valid()
  {
    match k
    case Evaluated(request, decision, evidence) => JudgementTraced(env, tr, h, request, decision, evidence)
    case Recorded(request, decision, evidence) => JudgementTraced(env, tr, h, request, decision, evidence)
    case Revalidating(operation, entry) => exists m: nat :: TakenAt(env, tr, m, h, operation, entry)
    case Revalidated(operation, entry, authorized, evidence) =>
      QueuedBefore(env, tr, |tr.events|, entry) && RejudgementTraced(env, tr, h, operation, entry, authorized, evidence)
    case Requeueing(_, entry) => QueuedBefore(env, tr, |tr.events|, entry)
    case Approved(operation, entry, authorized, evidence) => RejudgementTraced(env, tr, h, operation, entry, authorized, evidence)
    case _ => true
  }

  ghost predicate Traced(env: Env, tr: Trace)
    requires tr.Valid()
  {
    && (forall h | h in tr.Now().handlers :: HandlerTraced(env, tr, h, tr.Now().handlers[h]))
    && (forall operation | operation in tr.Now().pending :: QueuedBefore(env, tr, |tr.events|, tr.Now().pending[operation]))
    && (forall i | 0 <= i < |tr.Now().calls| :: CallTraced(env, tr, i, tr.Now().calls[i]))
  }

  // History only grows ---------------------------------------------------------------------------------------------

  lemma QueuedGrows(env: Env, tr: Trace, event: Event, t: State, m: nat, k: nat, entry: PendingOperation)
    requires tr.Valid() && QueuedBefore(env, tr, m, entry) && m <= k
    ensures QueuedBefore(env, tr.Then(event, t), k, entry)
  {
    var h: Id, n: nat, v: Evidence :| n < m && QueuedFrom(env, tr, n, h, entry, v);
    assert QueuedFrom(env, tr.Then(event, t), n, h, entry, v);
  }

  lemma TakenGrows(env: Env, tr: Trace, event: Event, t: State, m: nat, h: Id, operation: Id, entry: PendingOperation)
    requires tr.Valid() && TakenAt(env, tr, m, h, operation, entry)
    ensures TakenAt(env, tr.Then(event, t), m, h, operation, entry)
  {
    QueuedGrows(env, tr, event, t, m, m, entry);
  }

  lemma JudgementGrows(
    env: Env, tr: Trace, event: Event, t: State, h: Id, request: OperationRequest, decision: PolicyDecision, evidence: Option<Evidence>)
    requires tr.Valid() && JudgementTraced(env, tr, h, request, decision, evidence)
    ensures JudgementTraced(env, tr.Then(event, t), h, request, decision, evidence)
  {
    if !decision.Deny? {
      var n: nat :| ArrivedAt(env, tr, n, h, request, evidence.value);
      assert ArrivedAt(env, tr.Then(event, t), n, h, request, evidence.value);
    }
  }

  lemma RejudgedGrows(
    env: Env, tr: Trace, event: Event, t: State, m: nat, n: nat, h: Id, operation: Id, entry: PendingOperation, v: Evidence)
    requires tr.Valid() && RejudgedAt(env, tr, m, n, h, operation, entry, v)
    ensures RejudgedAt(env, tr.Then(event, t), m, n, h, operation, entry, v)
  {
    TakenGrows(env, tr, event, t, m, h, operation, entry);
  }

  lemma HandlerGrows(env: Env, tr: Trace, event: Event, t: State, h: Id, k: Handler)
    requires tr.Valid() && HandlerTraced(env, tr, h, k)
    ensures HandlerTraced(env, tr.Then(event, t), h, k)
  {
    match k
    case Evaluated(request, decision, evidence) => JudgementGrows(env, tr, event, t, h, request, decision, evidence);
    case Recorded(request, decision, evidence) => JudgementGrows(env, tr, event, t, h, request, decision, evidence);
    case Revalidating(operation, entry) =>
      var m: nat :| TakenAt(env, tr, m, h, operation, entry);
      TakenGrows(env, tr, event, t, m, h, operation, entry);
    case Requeueing(_, entry) => QueuedGrows(env, tr, event, t, |tr.events|, |tr.events| + 1, entry);
    case Revalidated(operation, entry, authorized, evidence) =>
      QueuedGrows(env, tr, event, t, |tr.events|, |tr.events| + 1, entry);
      RejudgementGrows(env, tr, event, t, h, operation, entry, authorized, evidence);
    case Approved(operation, entry, authorized, evidence) =>
      RejudgementGrows(env, tr, event, t, h, operation, entry, authorized, evidence);
    case _ =>
  }

  lemma RejudgementGrows(
    env: Env, tr: Trace, event: Event, t: State, h: Id, operation: Id, entry: PendingOperation, authorized: bool,
    evidence: Option<Evidence>)
    requires tr.Valid() && RejudgementTraced(env, tr, h, operation, entry, authorized, evidence)
    ensures RejudgementTraced(env, tr.Then(event, t), h, operation, entry, authorized, evidence)
  {
    if authorized {
      var m: nat, n: nat :| RejudgedAt(env, tr, m, n, h, operation, entry, evidence.value);
      RejudgedGrows(env, tr, event, t, m, n, h, operation, entry, evidence.value);
    }
  }

  lemma ApprovedGrows(env: Env, tr: Trace, event: Event, t: State, h: Id, m: nat, n: nat, j: nat, i: nat, call: CoreCall)
    requires tr.Valid() && ApprovedCall(env, tr, h, m, n, j, i, call)
    ensures ApprovedCall(env, tr.Then(event, t), h, m, n, j, i, call)
  {
    RejudgedGrows(env, tr, event, t, m, n, h, call.request.operationId, EntryOf(call), call.evidence.value);
  }

  lemma DirectGrows(env: Env, tr: Trace, event: Event, t: State, h: Id, n: nat, j: nat, i: nat, call: CoreCall)
    requires tr.Valid() && DirectCall(env, tr, h, n, j, i, call)
    ensures DirectCall(env, tr.Then(event, t), h, n, j, i, call)
  {
  }

  lemma CallGrows(env: Env, tr: Trace, event: Event, t: State, i: nat, call: CoreCall)
    requires tr.Valid() && CallTraced(env, tr, i, call)
    ensures CallTraced(env, tr.Then(event, t), i, call)
  {
    if call.approved {
      var h: Id, m: nat, n: nat, j: nat :| ApprovedCall(env, tr, h, m, n, j, i, call);
      ApprovedGrows(env, tr, event, t, h, m, n, j, i, call);
    } else {
      var h: Id, n: nat, j: nat :| DirectCall(env, tr, h, n, j, i, call);
      DirectGrows(env, tr, event, t, h, n, j, i, call);
    }
  }

  // Steps -------------------------------------------------------------------------------------------------------------

  // The entry was in the queue already.
  ghost predicate FromQueue(s: State, t: State, operation: Id)
    requires operation in t.pending
  {
    operation in s.pending && t.pending[operation] == s.pending[operation]
  }

  lemma QueueTraced(env: Env, tr: Trace, event: Event, t: State)
    requires tr.Valid() && Traced(env, tr)
    requires forall operation | operation in t.pending ::
               FromQueue(tr.Now(), t, operation) || QueuedBefore(env, tr.Then(event, t), |tr.events| + 1, t.pending[operation])
    ensures forall operation | operation in t.pending ::
              QueuedBefore(env, tr.Then(event, t), |tr.events| + 1, t.pending[operation])
  {
    forall operation | operation in t.pending
      ensures QueuedBefore(env, tr.Then(event, t), |tr.events| + 1, t.pending[operation])
    {
      if FromQueue(tr.Now(), t, operation) {
        QueuedGrows(env, tr, event, t, |tr.events|, |tr.events| + 1, t.pending[operation]);
      }
    }
  }

  lemma HandlersTraced(env: Env, tr: Trace, event: Event, t: State, h: Id)
    requires tr.Valid() && Traced(env, tr) && OthersKept(tr.Now(), t, h)
    requires h in t.handlers ==> HandlerTraced(env, tr.Then(event, t), h, t.handlers[h])
    ensures forall k | k in t.handlers :: HandlerTraced(env, tr.Then(event, t), k, t.handlers[k])
  {
    forall k | k in t.handlers ensures HandlerTraced(env, tr.Then(event, t), k, t.handlers[k]) {
      if k != h { HandlerGrows(env, tr, event, t, k, t.handlers[k]); }
    }
  }

  lemma CallsTraced(env: Env, tr: Trace, event: Event, t: State)
    requires tr.Valid() && Traced(env, tr) && tr.Now().calls <= t.calls
    requires forall i | |tr.Now().calls| <= i < |t.calls| :: CallTraced(env, tr.Then(event, t), i, t.calls[i])
    ensures forall i | 0 <= i < |t.calls| :: CallTraced(env, tr.Then(event, t), i, t.calls[i])
  {
    forall i | 0 <= i < |tr.Now().calls| ensures CallTraced(env, tr.Then(event, t), i, t.calls[i]) {
      CallGrows(env, tr, event, t, i, t.calls[i]);
    }
  }

  // A step by h that makes no call.
  lemma QuietTraced(env: Env, tr: Trace, event: Event, t: State, h: Id)
    requires tr.Valid() && Traced(env, tr) && OthersKept(tr.Now(), t, h) && t.calls == tr.Now().calls
    requires h in t.handlers ==> HandlerTraced(env, tr.Then(event, t), h, t.handlers[h])
    requires forall operation | operation in t.pending ::
               FromQueue(tr.Now(), t, operation) || QueuedBefore(env, tr.Then(event, t), |tr.events| + 1, t.pending[operation])
    ensures Traced(env, tr.Then(event, t))
  {
    QueueTraced(env, tr, event, t);
    HandlersTraced(env, tr, event, t, h);
    CallsTraced(env, tr, event, t);
  }

  // Handler h is where it was, or at a stage that claims nothing.
  lemma IdleTraced(env: Env, tr: Trace, event: Event, t: State, h: Id)
    requires tr.Valid() && Traced(env, tr) && OthersKept(tr.Now(), t, h) && t.calls == tr.Now().calls
    requires h in t.handlers ==>
               || (h in tr.Now().handlers && t.handlers[h] == tr.Now().handlers[h])
               || ClaimsNothing(t.handlers[h])
    requires forall operation | operation in t.pending :: FromQueue(tr.Now(), t, operation)
    ensures Traced(env, tr.Then(event, t))
  {
    if h in t.handlers && h in tr.Now().handlers && t.handlers[h] == tr.Now().handlers[h] {
      HandlerGrows(env, tr, event, t, h, t.handlers[h]);
    }
    QuietTraced(env, tr, event, t, h);
  }

  predicate ClaimsNothing(k: Handler) {
    !k.Evaluated? && !k.Recorded? && !k.Revalidating? && !k.Revalidated? && !k.Approved? && !k.Requeueing?
  }

  lemma LastCallTraced(env: Env, tr: Trace, event: Event, t: State, call: CoreCall)
    requires tr.Valid() && Traced(env, tr) && t.calls == tr.Now().calls + [call]
    requires CallTraced(env, tr.Then(event, t), |tr.Now().calls|, call)
    ensures forall i | 0 <= i < |t.calls| :: CallTraced(env, tr.Then(event, t), i, t.calls[i])
  {
    forall i | |tr.Now().calls| <= i < |t.calls| ensures CallTraced(env, tr.Then(event, t), i, t.calls[i]) {
      assert t.calls[i] == call;
    }
    CallsTraced(env, tr, event, t);
  }

  // A step by h that makes a call.
  lemma CallingTraced(env: Env, tr: Trace, event: Event, t: State, h: Id, call: CoreCall)
    requires tr.Valid() && Traced(env, tr) && OthersKept(tr.Now(), t, h) && t.calls == tr.Now().calls + [call]
    requires h in t.handlers && ClaimsNothing(t.handlers[h]) && t.pending == tr.Now().pending
    requires CallTraced(env, tr.Then(event, t), |tr.Now().calls|, call)
    ensures Traced(env, tr.Then(event, t))
  {
    QueueTraced(env, tr, event, t);
    HandlersTraced(env, tr, event, t, h);
    LastCallTraced(env, tr, event, t, call);
  }

  lemma ArriveTraced(env: Env, tr: Trace, event: Event)
    requires env.Valid() && tr.Valid() && Traced(env, tr) && tr.Now().WellKeyed() && event.OperationArrives?
    ensures Traced(env, tr.Then(event, Arrive(env, tr.Now(), event.h, event.request, event.claimedDevice, event.actor,
                                              event.fs, event.now)))
  {
    var s := tr.Now();
    var t := Arrive(env, s, event.h, event.request, event.claimedDevice, event.actor, event.fs, event.now);
    if t == s {
      IdleTraced(env, tr, event, t, event.h);
    } else {
      var Evaluated(request, decision, evidence) := t.handlers[event.h];
      if !decision.Deny? {
        AcceptedSpeaksFor(evidence.value.grant.principal, event.actor);
        assert ArrivedAt(env, tr.Then(event, t), |tr.events|, event.h, request, evidence.value);
      }
      QuietTraced(env, tr, event, t, event.h);
    }
  }

  lemma AuditWriteTraced(env: Env, tr: Trace, h: Id, w: Write)
    requires tr.Valid() && Traced(env, tr)
    ensures Traced(env, tr.Then(WriteAudit(h, w), AuditWrite(tr.Now(), h, w)))
  {
    var s := tr.Now();
    var event, t := WriteAudit(h, w), AuditWrite(s, h, w);
    if h in s.handlers && s.handlers[h].Evaluated? {
      var Evaluated(request, decision, evidence) := s.handlers[h];
      assert HandlerTraced(env, tr, h, s.handlers[h]);
      JudgementGrows(env, tr, event, t, h, request, decision, evidence);
      QuietTraced(env, tr, event, t, h);
    } else {
      IdleTraced(env, tr, event, t, h);
    }
  }

  lemma DispatchTraced(env: Env, tr: Trace, h: Id)
    requires tr.Valid() && Traced(env, tr)
    ensures Traced(env, tr.Then(Dispatch(h), DispatchRecorded(tr.Now(), h)))
  {
    var s := tr.Now();
    if h in s.handlers && s.handlers[h].Recorded? {
      var Recorded(request, decision, evidence) := s.handlers[h];
      assert HandlerTraced(env, tr, h, s.handlers[h]);
      match decision
      case Allow(capability, risk) => RunTracedNow(env, tr, h, CoreCall(request, capability, risk, false, evidence));
      case Deny(_) => ReleaseTraced(env, tr, Dispatch(h), h, s.audit);
      case RequireApproval(_, _) => QueueTracedNow(env, tr, h, request, decision, evidence);
    } else {
      IdleTraced(env, tr, Dispatch(h), s, h);
    }
  }

  lemma RunTracedNow(env: Env, tr: Trace, h: Id, call: CoreCall)
    requires tr.Valid() && Traced(env, tr) && !call.approved
    requires JudgementTraced(env, tr, h, call.request, Allow(call.capability, call.risk), call.evidence)
    ensures Traced(env, tr.Then(Dispatch(h), tr.Now().(calls := tr.Now().calls + [call],
                                                       handlers := tr.Now().handlers[h := Executed(call.request.operationId)])))
  {
    var s, event := tr.Now(), Dispatch(h);
    var t := s.(calls := s.calls + [call], handlers := s.handlers[h := Executed(call.request.operationId)]);
    var n: nat :| ArrivedAt(env, tr, n, h, call.request, call.evidence.value);
    assert DirectCall(env, tr.Then(event, t), h, n, |tr.events|, |s.calls|, call);
    CallingTraced(env, tr, event, t, h, call);
  }

  lemma QueueTracedNow(env: Env, tr: Trace, h: Id, request: OperationRequest, decision: PolicyDecision, evidence: Option<Evidence>)
    requires tr.Valid() && Traced(env, tr) && decision.RequireApproval?
    requires JudgementTraced(env, tr, h, request, decision, evidence)
    ensures var entry := PendingOperation(request, decision.capability, decision.risk);
            Traced(env, tr.Then(Dispatch(h), tr.Now().(pending := tr.Now().pending[request.operationId := entry],
                                                       handlers := tr.Now().handlers - {h})))
  {
    var s, entry := tr.Now(), PendingOperation(request, decision.capability, decision.risk);
    var t := s.(pending := s.pending[request.operationId := entry], handlers := s.handlers - {h});
    EntersQueue(env, tr, Dispatch(h), t, h, request, decision, evidence);
    QuietTraced(env, tr, Dispatch(h), t, h);
  }

  lemma EntersQueue(
    env: Env, tr: Trace, event: Event, t: State, h: Id, request: OperationRequest, decision: PolicyDecision, evidence: Option<Evidence>)
    requires tr.Valid() && JudgementTraced(env, tr, h, request, decision, evidence) && decision.RequireApproval?
    ensures QueuedBefore(env, tr.Then(event, t), |tr.events| + 1, PendingOperation(request, decision.capability, decision.risk))
  {
    var entry := PendingOperation(request, decision.capability, decision.risk);
    var n: nat :| ArrivedAt(env, tr, n, h, request, evidence.value);
    assert QueuedFrom(env, tr, n, h, entry, evidence.value);
    assert QueuedBefore(env, tr, |tr.events|, entry);
    QueuedGrows(env, tr, event, t, |tr.events|, |tr.events| + 1, entry);
  }

  lemma TakeTraced(env: Env, tr: Trace, h: Id, operation: Id)
    requires tr.Valid() && Traced(env, tr)
    ensures Traced(env, tr.Then(TakeForApproval(h, operation), TakeApproval(tr.Now(), h, operation)))
  {
    var s := tr.Now();
    var event, t := TakeForApproval(h, operation), TakeApproval(s, h, operation);
    if t == s {
      IdleTraced(env, tr, event, t, h);
    } else {
      QueuedGrows(env, tr, event, t, |tr.events|, |tr.events|, s.pending[operation]);
      assert TakenAt(env, tr.Then(event, t), |tr.events|, h, operation, s.pending[operation]);
      QuietTraced(env, tr, event, t, h);
    }
  }

  lemma RevalidateTraced(env: Env, tr: Trace, h: Id, fs: FileSystem, now: Time)
    requires env.Valid() && tr.Valid() && Traced(env, tr) && tr.Now().WellKeyed()
    ensures Traced(env, tr.Then(Revalidate(h, fs, now), RevalidateTaken(env, tr.Now(), h, fs, now)))
  {
    var s := tr.Now();
    if h in s.handlers && s.handlers[h].Revalidating? {
      var Revalidating(operation, entry) := s.handlers[h];
      var authorized := Evaluate(env, s, entry.request, fs, now) == RequireApproval(entry.capability, entry.risk);
      RejudgeTraced(env, tr, h, operation, entry, fs, now, authorized);
    } else {
      IdleTraced(env, tr, Revalidate(h, fs, now), s, h);
    }
  }

  lemma RejudgeTraced(
    env: Env, tr: Trace, h: Id, operation: Id, entry: PendingOperation, fs: FileSystem, now: Time, authorized: bool)
    requires env.Valid() && tr.Valid() && Traced(env, tr) && tr.Now().WellKeyed()
    requires h in tr.Now().handlers && tr.Now().handlers[h] == Revalidating(operation, entry)
    requires authorized ==> Evaluate(env, tr.Now(), entry.request, fs, now) == RequireApproval(entry.capability, entry.risk)
    ensures var evidence := EvidenceFor(tr.Now(), entry.request, fs, now);
            Traced(env, tr.Then(Revalidate(h, fs, now), tr.Now().(handlers := tr.Now().handlers[
              h := Revalidated(operation, entry, authorized, evidence)])))
  {
    var s, event := tr.Now(), Revalidate(h, fs, now);
    var evidence := EvidenceFor(s, entry.request, fs, now);
    var t := s.(handlers := s.handlers[h := Revalidated(operation, entry, authorized, evidence)]);
    assert HandlerTraced(env, tr, h, s.handlers[h]);
    var m: nat :| TakenAt(env, tr, m, h, operation, entry);
    QueuedGrows(env, tr, event, t, m, |tr.events| + 1, entry);
    if authorized { RejudgedNow(env, tr, event, t, m, h, operation, entry, evidence); }
    QuietTraced(env, tr, event, t, h);
  }

  lemma RejudgedNow(
    env: Env, tr: Trace, event: Event, t: State, m: nat, h: Id, operation: Id, entry: PendingOperation, evidence: Option<Evidence>)
    requires env.Valid() && tr.Valid() && tr.Now().WellKeyed() && TakenAt(env, tr, m, h, operation, entry) && event.Revalidate?
    requires h in tr.Now().handlers && tr.Now().handlers[h] == Revalidating(operation, entry) && event.h == h
    requires evidence == EvidenceFor(tr.Now(), entry.request, event.fs, event.now)
    requires Evaluate(env, tr.Now(), entry.request, event.fs, event.now) == RequireApproval(entry.capability, entry.risk)
    ensures RejudgementTraced(env, tr.Then(event, t), h, operation, entry, true, evidence)
  {
    TakenGrows(env, tr, event, t, m, h, operation, entry);
    assert RejudgedAt(env, tr.Then(event, t), m, |tr.events|, h, operation, entry, evidence.value);
  }

  lemma ApprovalWriteTraced(env: Env, tr: Trace, h: Id, w: Write)
    requires tr.Valid() && Traced(env, tr)
    ensures Traced(env, tr.Then(WriteApproval(h, w), ApprovalWrite(tr.Now(), h, w)))
  {
    var s := tr.Now();
    var event, t := WriteApproval(h, w), ApprovalWrite(s, h, w);
    if h in s.handlers && s.handlers[h].Revalidated? {
      var Revalidated(operation, entry, authorized, evidence) := s.handlers[h];
      assert HandlerTraced(env, tr, h, s.handlers[h]);
      QueuedGrows(env, tr, event, t, |tr.events|, |tr.events| + 1, entry);
      RejudgementGrows(env, tr, event, t, h, operation, entry, authorized, evidence);
      QuietTraced(env, tr, event, t, h);
    } else {
      IdleTraced(env, tr, event, t, h);
    }
  }

  lemma ApprovalFinishTraced(env: Env, tr: Trace, h: Id, connected: bool, w: Write)
    requires tr.Valid() && Traced(env, tr) && Safe(tr.Now())
    ensures Traced(env, tr.Then(FinishApproval(h, connected, w), ApprovalFinish(tr.Now(), h, connected, w)))
  {
    var s := tr.Now();
    var event := FinishApproval(h, connected, w);
    if h in s.handlers && s.handlers[h].Approved? {
      var Approved(operation, entry, authorized, evidence) := s.handlers[h];
      assert HandlerSound(s.audit, s.calls, s.handlers[h]);
      assert HandlerTraced(env, tr, h, s.handlers[h]);
      if !authorized {
        ReleaseTraced(env, tr, event, h, UpdateExecution(s.audit, operation, Unexecuted("POLICY_REVALIDATION_DENIED"), w));
      } else if connected {
        ExecuteTraced(env, tr, event, h, CoreCall(entry.request, entry.capability, entry.risk, true, evidence));
      } else {
        ReleaseTraced(env, tr, event, h, s.audit);
      }
    } else {
      IdleTraced(env, tr, event, s, h);
    }
  }

  lemma ReleaseTraced(env: Env, tr: Trace, event: Event, h: Id, audit: Audit)
    requires tr.Valid() && Traced(env, tr)
    ensures Traced(env, tr.Then(event, tr.Now().(audit := audit, handlers := tr.Now().handlers - {h})))
  {
    IdleTraced(env, tr, event, tr.Now().(audit := audit, handlers := tr.Now().handlers - {h}), h);
  }

  lemma ExecuteTraced(env: Env, tr: Trace, event: Event, h: Id, call: CoreCall)
    requires tr.Valid() && Traced(env, tr) && event.FinishApproval? && event.h == h && call.approved
    requires RejudgementTraced(env, tr, h, call.request.operationId, EntryOf(call), true, call.evidence)
    ensures Traced(env, tr.Then(event, tr.Now().(calls := tr.Now().calls + [call],
                                                 handlers := tr.Now().handlers[h := Executed(call.request.operationId)])))
  {
    var s := tr.Now();
    var t := s.(calls := s.calls + [call], handlers := s.handlers[h := Executed(call.request.operationId)]);
    ApprovedNow(env, tr, event, t, h, call);
    CallingTraced(env, tr, event, t, h, call);
  }

  lemma ApprovedNow(env: Env, tr: Trace, event: Event, t: State, h: Id, call: CoreCall)
    requires tr.Valid() && event.FinishApproval? && event.h == h && t.calls == tr.Now().calls + [call] && call.approved
    requires RejudgementTraced(env, tr, h, call.request.operationId, EntryOf(call), true, call.evidence)
    ensures CallTraced(env, tr.Then(event, t), |tr.Now().calls|, call)
  {
    var m: nat, n: nat :| RejudgedAt(env, tr, m, n, h, call.request.operationId, EntryOf(call), call.evidence.value);
    RejudgedGrows(env, tr, event, t, m, n, h, call.request.operationId, EntryOf(call), call.evidence.value);
    assert ApprovedCall(env, tr.Then(event, t), h, m, n, |tr.events|, |tr.Now().calls|, call);
  }

  lemma ReportTraced(env: Env, tr: Trace, event: Event, h: Id, core: CoreResult, w: Write)
    requires tr.Valid() && Traced(env, tr)
    ensures Traced(env, tr.Then(event, Report(tr.Now(), h, core, w)))
  {
    ReportMoves(tr.Now(), h, core, w);
    IdleTraced(env, tr, event, Report(tr.Now(), h, core, w), h);
  }

  lemma RequeueTraced(env: Env, tr: Trace, event: Event, h: Id)
    requires tr.Valid() && Traced(env, tr)
    ensures Traced(env, tr.Then(event, RequeueTaken(tr.Now(), h)))
  {
    var s := tr.Now();
    var t := RequeueTaken(s, h);
    if h in s.handlers && s.handlers[h].Requeueing? {
      assert HandlerTraced(env, tr, h, s.handlers[h]);
      QueuedGrows(env, tr, event, t, |tr.events|, |tr.events| + 1, s.handlers[h].entry);
      QuietTraced(env, tr, event, t, h);
    } else {
      IdleTraced(env, tr, event, t, h);
    }
  }

  lemma TakeDenialTraced(env: Env, tr: Trace, event: Event, h: Id, operation: Id)
    requires tr.Valid() && Traced(env, tr)
    ensures Traced(env, tr.Then(event, TakeDenial(tr.Now(), h, operation)))
  {
    TakesMove(tr.Now(), h, operation);
    IdleTraced(env, tr, event, TakeDenial(tr.Now(), h, operation), h);
  }

  lemma DenialWriteTraced(env: Env, tr: Trace, event: Event, h: Id, w: Write)
    requires tr.Valid() && Traced(env, tr)
    ensures Traced(env, tr.Then(event, DenialWrite(tr.Now(), h, w)))
  {
    DenialWriteMoves(tr.Now(), h, w);
    IdleTraced(env, tr, event, DenialWrite(tr.Now(), h, w), h);
  }

  lemma DenialFinishTraced(env: Env, tr: Trace, event: Event, h: Id, w: Write)
    requires tr.Valid() && Traced(env, tr)
    ensures Traced(env, tr.Then(event, DenialFinish(tr.Now(), h, w)))
  {
    DenialFinishMoves(tr.Now(), h, w);
    IdleTraced(env, tr, event, DenialFinish(tr.Now(), h, w), h);
  }

  lemma QueueStepTraced(env: Env, tr: Trace, event: Event)
    requires env.Valid() && tr.Valid() && Traced(env, tr) && tr.Now().WellKeyed()
    requires event.ReportExecution? || event.Requeue? || event.TakeForDenial? || event.WriteDenial? || event.FinishDenial?
    ensures Traced(env, tr.Then(event, Apply(env, tr.Now(), event)))
  {
    match event
    case ReportExecution(h, core, w) => ReportTraced(env, tr, event, h, core, w);
    case Requeue(h) => RequeueTraced(env, tr, event, h);
    case TakeForDenial(h, operation) => TakeDenialTraced(env, tr, event, h, operation);
    case WriteDenial(h, w) => DenialWriteTraced(env, tr, event, h, w);
    case FinishDenial(h, w) => DenialFinishTraced(env, tr, event, h, w);
  }

  lemma SweepTraced(env: Env, tr: Trace, event: Event, h: Id)
    requires tr.Valid() && Traced(env, tr)
    ensures Traced(env, tr.Then(event, InvalidateTaken(tr.Now(), h)))
  {
    SweepMoves(tr.Now(), h);
    IdleTraced(env, tr, event, InvalidateTaken(tr.Now(), h), h);
  }

  lemma FinalizeTraced(env: Env, tr: Trace, event: Event, h: Id, operation: Id, w: Write)
    requires tr.Valid() && Traced(env, tr)
    ensures Traced(env, tr.Then(event, FinalizeOne(tr.Now(), h, operation, w)))
  {
    FinalizeMoves(tr.Now(), h, operation, w);
    IdleTraced(env, tr, event, FinalizeOne(tr.Now(), h, operation, w), h);
  }

  lemma DecideTraced(env: Env, tr: Trace, event: Event, h: Id, subject: Id, decision: S.SessionEvent, mirrored: bool, now: Time)
    requires tr.Valid() && Traced(env, tr) && tr.Now().WellKeyed()
    ensures Traced(env, tr.Then(event, DecideOn(tr.Now(), h, subject, decision, mirrored, now)))
  {
    DecideTouches(tr.Now(), h, subject, decision, mirrored, now);
    SweepBegins(env, tr, event, DecideOn(tr.Now(), h, subject, decision, mirrored, now), h, subject);
  }

  // Nothing in the pipeline changes, or a sweep begins.
  lemma SweepBegins(env: Env, tr: Trace, event: Event, t: State, h: Id, subject: Id)
    requires tr.Valid() && Traced(env, tr) && t.calls == tr.Now().calls && t.pending == tr.Now().pending
    requires t.handlers == tr.Now().handlers || t.handlers == tr.Now().handlers[h := Invalidating(subject)]
    ensures Traced(env, tr.Then(event, t))
  {
    IdleTraced(env, tr, event, t, h);
  }

  lemma AuthorityStepTraced(env: Env, tr: Trace, event: Event)
    requires env.Valid() && tr.Valid() && Traced(env, tr) && tr.Now().WellKeyed()
    requires event.DecideSession? || event.InvalidatePending? || event.FinalizeInvalidated? || OfRequest(event)
             || event.WorkspacesChange?
    ensures Traced(env, tr.Then(event, Apply(env, tr.Now(), event)))
  {
    match event
    case DecideSession(h, subject, decision, mirrored, now) => DecideTraced(env, tr, event, h, subject, decision, mirrored, now);
    case InvalidatePending(h) => SweepTraced(env, tr, event, h);
    case FinalizeInvalidated(h, operation, w) => FinalizeTraced(env, tr, event, h, operation, w);
    case WorkspacesChange(workspaces) => SweepBegins(env, tr, event, tr.Now().(workspaces := workspaces), 0, 0);
    case _ => RequestTraced(env, tr, event);
  }

  lemma RequestTraced(env: Env, tr: Trace, event: Event)
    requires env.Valid() && tr.Valid() && Traced(env, tr) && tr.Now().WellKeyed() && OfRequest(event)
    ensures Traced(env, tr.Then(event, Apply(env, tr.Now(), event)))
  {
    SweepBegins(env, tr, event, Apply(env, tr.Now(), event), 0, 0);
  }

  lemma RestartTraced(env: Env, tr: Trace)
    requires tr.Valid() && Traced(env, tr) && tr.Now().WellKeyed()
    ensures Traced(env, tr.Then(Restart, Reboot(tr.Now())))
  {
    var t := Reboot(tr.Now());
    forall i | 0 <= i < |t.calls| ensures CallTraced(env, tr.Then(Restart, t), i, t.calls[i]) {
      CallGrows(env, tr, Restart, t, i, t.calls[i]);
    }
  }

  lemma StepTraced(env: Env, tr: Trace, event: Event)
    requires env.Valid() && tr.Valid() && Traced(env, tr) && tr.Now().WellKeyed() && Safe(tr.Now())
    ensures Traced(env, tr.Then(event, Apply(env, tr.Now(), event)))
  {
    match event
    case OperationArrives(_, _, _, _, _, _) => ArriveTraced(env, tr, event);
    case WriteAudit(h, w) => AuditWriteTraced(env, tr, h, w);
    case Dispatch(h) => DispatchTraced(env, tr, h);
    case TakeForApproval(h, operation) => TakeTraced(env, tr, h, operation);
    case Revalidate(h, fs, now) => RevalidateTraced(env, tr, h, fs, now);
    case WriteApproval(h, w) => ApprovalWriteTraced(env, tr, h, w);
    case FinishApproval(h, connected, w) => ApprovalFinishTraced(env, tr, h, connected, w);
    case Restart => RestartTraced(env, tr);
    case _ =>
      if event.ReportExecution? || event.Requeue? || event.TakeForDenial? || event.WriteDenial? || event.FinishDenial? {
        QueueStepTraced(env, tr, event);
      } else {
        AuthorityStepTraced(env, tr, event);
      }
  }

  // Runs --------------------------------------------------------------------------------------------------------------

  ghost function TraceOf(env: Env, s: State, events: seq<Event>): (r: Trace)
    requires env.Valid() && s.WellKeyed()
    ensures r.Valid() && r.events == events && r.Now() == Run(env, s, events)
    decreases |events|
  {
    if events == [] then Trace([s], [])
    else TraceOf(env, s, events[..|events| - 1]).Then(events[|events| - 1], Run(env, s, events))
  }

  lemma {:induction false} TraceIsTheRun(env: Env, s: State, events: seq<Event>, n: nat)
    requires env.Valid() && s.WellKeyed() && n <= |events|
    ensures TraceOf(env, s, events).states[n] == Run(env, s, events[..n])
    decreases |events|
  {
    if n == |events| {
      assert events[..n] == events;
    } else {
      var init := events[..|events| - 1];
      TraceIsTheRun(env, s, init, n);
      assert init[..n] == events[..n];
    }
  }

  lemma {:induction false} RunTraced(env: Env, s: State, events: seq<Event>)
    requires env.Valid() && Booted(s)
    ensures Traced(env, TraceOf(env, s, events))
    decreases |events|
  {
    if events != [] {
      var init := events[..|events| - 1];
      RunTraced(env, s, init);
      RunSafe(env, s, init);
      StepTraced(env, TraceOf(env, s, init), events[|events| - 1]);
    }
  }
}
