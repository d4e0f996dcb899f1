/** A subject that every evaluation refuses: which of its operations can still reach the core. */
module Refusals {
  import opened Prelude
  import opened Policy
  import opened GrantStore
  import opened Daemon
  import opened PipelineSafety
  import opened PipelineTheorems
  import opened PolicyInPipeline

  // The policy refuses a grant that is not usable.
  ghost predicate RefusesUnusable(env: Env) {
    forall request, v: Evidence | !env.verdict(request, v).Deny? :: v.grant.UsableAt(v.now)
  }

  lemma EngineRefusesUnusable(engine: Engine, device: Option<Id>, ttl: TtlConfig)
    requires engine.Valid()
    ensures RefusesUnusable(EngineEnv(engine, device, ttl))
  {
  }

  // Handlers past their evaluation --------------------------------------------------------------------------

  // What a handler has already been permitted to pass to the core.
  function InFlight(k: Handler): (r: Option<(OperationRequest, Option<Evidence>)>) {
    match k
    case Evaluated(request, decision, evidence) => if decision.Deny? then None else Some((request, evidence))
    case Recorded(request, decision, evidence) => if decision.Deny? then None else Some((request, evidence))
    case Revalidated(_, entry, authorized, evidence) => if authorized then Some((entry.request, evidence)) else None
    case Approved(_, entry, authorized, evidence) => if authorized then Some((entry.request, evidence)) else None
    case _ => None
  }

  ghost predicate IsInFlight(s: State, request: OperationRequest, evidence: Option<Evidence>) {
    exists h | h in s.handlers :: InFlight(s.handlers[h]) == Some((request, evidence))
  }

  ghost predicate WasCalled(s: State, request: OperationRequest, evidence: Option<Evidence>) {
    exists i | 0 <= i < |s.calls| :: s.calls[i].request == request && s.calls[i].evidence == evidence
  }

  // What calls may rest on once the subject is subject in state t.
  ghost predicate AllowedAfter(t: State, subject: Id, o: Observation) {
    o.0.sessionId != subject || IsInFlight(t, o.0, Some(o.1)) || WasCalled(t, o.0, Some(o.1))
  }

  ghost function Allowed(t: State, subject: Id): iset<Observation> {
    iset o: Observation | AllowedAfter(t, subject, o)
  }

  lemma StartAllowed(env: Env, seen: iset<Observation>, t: State, subject: Id)
    requires Backed(env, seen, t)
    ensures Backed(env, Allowed(t, subject), t)
  {
    var allowed := Allowed(t, subject);
    forall h | h in t.handlers ensures HandlerBacked(env, allowed, t.handlers[h]) {
      assert HandlerBacked(env, seen, t.handlers[h]);
      if InFlight(t.handlers[h]).Some? {
        var (request, evidence) := InFlight(t.handlers[h]).value;
        assert AllowedAfter(t, subject, (request, evidence.value));
      }
    }
    forall i | 0 <= i < |t.calls|
      ensures Backs(env, allowed, t.calls[i].request, t.calls[i].evidence, VerdictOf(t.calls[i]))
    {
      assert AllowedAfter(t, subject, (t.calls[i].request, t.calls[i].evidence.value));
    }
  }

  // No evaluation for the subject permits anything.
  ghost predicate Refused(env: Env, s: State, subject: Id)
    requires env.Valid() && s.WellKeyed()
  {
    forall request: OperationRequest, fs: Boundary.FileSystem, now: Time | request.sessionId == subject ::
      Evaluate(env, s, request, fs, now).Deny?
  }

  lemma UnusableIsRefused(env: Env, s: State, subject: Id)
    requires env.Valid() && RefusesUnusable(env) && s.WellKeyed()
    requires var grant := Authority(s.grants, s.sessions, subject); grant.None? || !grant.value.status.Active?
    ensures Refused(env, s, subject)
  {
  }

  lemma RefusedIsCovered(env: Env, s: State, t: State, subject: Id)
    requires env.Valid() && s.WellKeyed() && Refused(env, s, subject)
    ensures Covers(env, Allowed(t, subject), s)
  {
    forall o: Observation | Observable(s, o) && !env.verdict(o.0, o.1).Deny? ensures o in Allowed(t, subject) {
      assert Evaluate(env, s, o.0, o.1.fs, o.1.now) == env.verdict(o.0, o.1);
    }
  }

  lemma {:induction false} RunAllowed(env: Env, t: State, after: seq<Event>, subject: Id)
    requires env.Valid() && t.WellKeyed() && Safe(t) && Backed(env, Allowed(t, subject), t)
    requires forall n | 0 <= n <= |after| :: Refused(env, Run(env, t, after[..n]), subject)
    ensures Safe(Run(env, t, after))
    ensures Backed(env, Allowed(t, subject), Run(env, t, after))
    ensures t.calls <= Run(env, t, after).calls
    decreases |after|
  {
    if after != [] {
      var init, last := after[..|after| - 1], after[|after| - 1];
      forall n | 0 <= n <= |init| ensures Refused(env, Run(env, t, init[..n]), subject) {
        assert init[..n] == after[..n];
      }
      RunAllowed(env, t, init, subject);
      var u := Run(env, t, init);
      assert after[..|init|] == init;
      StepSafe(env, u, last);
      StepCalls(env, u, last);
      RefusedIsCovered(env, u, t, subject);
      StepBacked(env, Allowed(t, subject), u, last);
    }
  }

  // Every later evaluation refuses, and every later call was already past its evaluation.
  ghost predicate ShutOut(env: Env, t: State, after: seq<Event>, subject: Id)
    requires env.Valid() && t.WellKeyed()
  {
    var u := Run(env, t, after);
    && Refused(env, u, subject)
    && t.calls <= u.calls
    && (forall i | |t.calls| <= i < |u.calls| && u.calls[i].request.sessionId == subject ::
          IsInFlight(t, u.calls[i].request, u.calls[i].evidence))
  }

  lemma CallIsNew(t: State, u: State, i: nat)
    requires t.calls <= u.calls && CalledOnce(u.calls) && |t.calls| <= i < |u.calls|
    ensures !WasCalled(t, u.calls[i].request, u.calls[i].evidence)
  {
    forall k | 0 <= k < |t.calls| ensures t.calls[k].request != u.calls[i].request {
      assert t.calls[k] == u.calls[k];
    }
  }

  lemma RefusedShutsOut(env: Env, t: State, seen: iset<Observation>, after: seq<Event>, subject: Id)
    requires env.Valid() && t.WellKeyed() && Safe(t) && Backed(env, seen, t)
    requires forall n | 0 <= n <= |after| :: Refused(env, Run(env, t, after[..n]), subject)
    ensures ShutOut(env, t, after, subject)
  {
    StartAllowed(env, seen, t, subject);
    RunAllowed(env, t, after, subject);
    var u := Run(env, t, after);
    assert after[..|after|] == after;
    forall i | |t.calls| <= i < |u.calls| && u.calls[i].request.sessionId == subject
      ensures IsInFlight(t, u.calls[i].request, u.calls[i].evidence)
    {
      var call := u.calls[i];
      assert Backs(env, Allowed(t, subject), call.request, call.evidence, VerdictOf(call));
      assert AllowedAfter(t, subject, (call.request, call.evidence.value));
      CallIsNew(t, u, i);
    }
  }
}
